# farmflowmotion in Dafny

farmflowmotion is a farm-management dashboard. Its React screens sit over a hosted record store and cover farms, crops, crop rotations, tasks, transactions and weather. This project models the deterministic logic under the screens and proves what each piece promises:

- **Services** (`backend.dfy`, `*_service.dfy`). Each service translates the store's `*_c` records into view records, with fixed defaults such as "Unknown Farm", "medium" and "planted". It also builds the payloads `create` and `update` send. All services share one error policy: list reads answer `[]` on failure, single reads fail with "not found", and writes fail with the store's message. The store's answers are inputs.
- **Derived views** (`task_list.dfy`, `task_item.dfy`, `transaction_table.dfy`, `crop_table.dfy`, `financial_summary.dfy`, `dashboard.dfy`, `crop_rotation.dfy`, `weather_page.dfy`, `weather_service.dfy`). These cover filters, stable sorts, badges, totals, the expense-by-category buckets, the calendar's month buckets, the dashboard statistics and "recent crops", the weather summary and the advice rule table.
- **Forms** (`forms.dfy`, `crop_form.dfy`, `transaction_form.dfy`, `farm_form.dfy`, `task_form.dfy`, and `RotationForm` in `crop_rotation.dfy`). Each form is a class holding its fields and its errors.
  - `validateForm` is a method that fills the error map check by check. It is proved equal to a declarative `Errors` function, and the form passes exactly when an `Acceptable` predicate holds.
  - `handleChange` sets one field and clears its error.
  - `handleSubmit` sends the payload exactly when the form passes.
  - An edit round trip is proved for each form.
- **Page list state** (`page_state.dfy`, `crops_page.dfy`, `finances_page.dfy`, `tasks_page.dfy`, `farms_page.dfy`). Each page is a class. A create appends, an edit replaces by `Id`, and a confirmed delete removes by `Id`. Each page also has a case-insensitive search.

Dates are calendar fields, and "now" is a parameter. Amounts, sizes and temperatures are integers. Reading and rendering dates and numbers (`new Date(text)`, `format`, `parseFloat`) are function parameters, and `parseFloat`'s NaN is `None`. `localeCompare` is a `collate` parameter, required to be a consistent total order where a sort claim depends on it.

## Model

| member | source | states |
|---|---|---|
| Backend.Or | src/services/api/cropService.js:44-45 | `field \|\| fallback` on text: a present, non-empty value is kept; an absent or empty one gives the fallback |
| Backend.OrZero | src/services/api/cropService.js:48 | `field \|\| 0` on a stored number, and `parseFloat(x) \|\| 0` on an entered one (cropService.js:151): a present value is kept, an absent one or NaN gives 0 |
| Backend.OrFalse | src/services/api/taskService.js:49 | `completed_c \|\| false` is true exactly when the field is present and true |
| Backend.IdTextOr | src/services/api/cropService.js:50 | a lookup with an Id gives the Id's decimal text; no lookup or no Id gives `''` |
| Backend.IdTextOrNull | src/services/api/taskService.js:53 | a lookup with an Id gives the Id's decimal text; otherwise `null` |
| Backend.NameOr | src/services/api/cropService.js:51 | `lookup?.Name \|\| fallback` is the lookup's name when it has a non-empty one, and the fallback otherwise (no lookup, no name, or an empty name) |
| Backend.NameOrNull | src/services/api/taskService.js:54 | `lookup?.Name \|\| null` is the lookup's name when it has a non-empty one, and `null` otherwise (no lookup, no name, or an empty name) |
| Backend.ReadAll | src/services/api/cropService.js:35-56 | a list read gives each fetched record decoded, in order, on a successful answer with data; `[]` on an unsuccessful answer or an exception |
| Backend.ReadOne | src/services/api/cropService.js:76-96 | `getById` gives the decoded record; without data it fails with "<Entity> with ID <id> not found"; the call's own exception is passed on |
| Backend.FirstData | src/services/api/cropService.js:164 | `response.results?.[0]?.data` is the first result's data, and nothing without results |
| Backend.ReadWritten | src/services/api/cropService.js:157-183 | `create`/`update` succeed exactly when the backend accepts and returns a first record, which is decoded; a refusal fails with the backend's message, and a missing record fails with "Failed to ..." |
| Backend.ReadDeleted | src/services/api/cropService.js:240-251 | `delete` gives the first result's success flag, false when absent; a refusal or an exception fails with its message |
| CropService.Decode | src/services/api/cropService.js:42-52 | a crop record reads with name and variety defaulting to `''`, area to 0, status to "planted"; farmId is the farm lookup's Id as decimal text, `''` without a lookup Id; farmName is the lookup's non-empty Name, "Unknown Farm" otherwise |
| CropService.CreateRequest | src/services/api/cropService.js:145-155 | `create` sends no Id, the parsed area or 0, a status that is never empty and keeps a given one, and the farm Id parsed as an integer |
| CropService.UpdateRequest | src/services/api/cropService.js:190-201 | `update` sends the given Id |
| CropService.UpdateIsCreatePlusId | src/services/api/cropService.js:190-201 | `update` sends exactly the fields `create` sends, plus the Id |
| CropService.CreateRoundTrip | src/services/api/cropService.js:145-176 | a created crop reads back with the sent name, variety, dates and farm, the area or 0, and the status or "planted" |
| CropService.ByFarmBelongs | src/services/api/cropService.js:99-134 | when the store answers the `farm_id_c` query with that farm's records, every crop `getByFarmId` returns belongs to the farm |
| CropService.GetAll | src/services/api/cropService.js:18-57 | `getAll` (and `getByFarmId`) gives every fetched record decoded, in order, and `[]` when the read is refused or throws |
| CropService.GetById | src/services/api/cropService.js:59-97 | `getById` gives the decoded record, fails with "Crop with ID <id> not found" when no record comes back, and passes on the call's own error |
| CropService.Create | src/services/api/cropService.js:141-184 | `create` succeeds exactly when the store accepts and returns a record, which is decoded; a refusal fails with the store's message, a missing record with "Failed to create crop" |
| CropService.Update | src/services/api/cropService.js:186-230 | `update` succeeds exactly when the store accepts and returns a record, which is decoded; a refusal fails with the store's message, a missing record with "Failed to update crop" |
| CropService.Delete | src/services/api/cropService.js:232-252 | `delete` gives whether the first result reports success (false without results); a refusal or an exception fails with its message |
| FarmService.Decode | src/services/api/farmService.js:42-48 | a farm record reads with name, location and soil type defaulting to `''`, size to 0, the creation time to the read's current time, and the summary text to `''` |
| FarmService.CreateRequest | src/services/api/farmService.js:97-105 | `create` stamps the current time, sends no Id, the entered name, location and weather summary, the parsed size or 0, and a soil type that is never empty and keeps a given one |
| FarmService.UpdateRequest | src/services/api/farmService.js:139-147 | `update` sends the Id, never a creation time, the entered name, location and weather summary, the parsed size or 0, and a soil type that is never empty and keeps a given one |
| FarmService.UpdateIsCreatePlusId | src/services/api/farmService.js:139-147 | `update` sends `create`'s record with the Id added and the creation time left out |
| FarmService.CreateRoundTrip | src/services/api/farmService.js:97-127 | a created farm reads back with the entered name, location and summary text, the size or 0, the soil type or "loam", and the stamped creation time |
| FarmService.CreateStampsTime | src/services/api/farmService.js:103 | a created farm reads back with the creation time `create` stamped, whenever it is read |
| FarmService.SoilTypeDefaults | src/services/api/farmService.js:46 | an empty soil type is written as "loam" and reads back as "loam", while a record stored without one reads as `''` |
| FarmService.UpdateKeepsCreationTime | src/services/api/farmService.js:139-147 | an update leaves the stored creation time in place |
| FarmService.GetAll | src/services/api/farmService.js:18-54 | `getAll` gives every fetched record decoded, in order, and `[]` when the read is refused or throws |
| FarmService.GetById | src/services/api/farmService.js:56-91 | `getById` gives the decoded record, fails with "Farm with ID <id> not found" when no record comes back, and passes on the call's own error |
| FarmService.Create | src/services/api/farmService.js:93-133 | `create` succeeds exactly when the store accepts and returns a record, which is decoded; a refusal fails with the store's message, a missing record with "Failed to create farm" |
| FarmService.Update | src/services/api/farmService.js:135-175 | `update` succeeds exactly when the store accepts and returns a record, which is decoded; a refusal fails with the store's message, a missing record with "Failed to update farm" |
| FarmService.Delete | src/services/api/farmService.js:177-197 | `delete` gives whether the first result reports success (false without results); a refusal or an exception fails with its message |
| TaskService.Decode | src/services/api/taskService.js:43-55 | a task record reads with title and description defaulting to `''`, priority to "medium", completed true only when stored true; farmId is the farm lookup's Id as decimal text (`''` without one) and farmName its non-empty Name ("Unknown Farm" otherwise); cropId is the crop lookup's Id text and cropName its non-empty Name, each `null` otherwise |
| TaskService.CreateRequest | src/services/api/taskService.js:159-170 | `create` sends no Id, `completed_c = false` and `completed_at_c = null`, a crop link exactly when cropId is non-empty, a non-empty priority, and the farm Id parsed as an integer |
| TaskService.UpdateRequest | src/services/api/taskService.js:207-223 | `update` sends the Id, the title, description and due date, the priority or "medium", the farm Id parsed as an integer, a crop link (the parsed crop Id) exactly when cropId is non-empty, and `completed_c`/`completed_at_c` only when the data has its own `completed`; `completed_at_c` is the current time exactly when completed is true |
| TaskService.UpdateIsCreatePlusId | src/services/api/taskService.js:207-223 | an edit writes what a creation writes, under the given Id, with the completion fields only as the data's own `completed` asks |
| TaskService.CompleteRequest | src/services/api/taskService.js:258-264 | `complete` rethrows the failure of reading the task; otherwise it writes the same Id with the completed flag negated, stamping the time only when completing, and with the current task's title, description, due date, priority, farm and crop |
| TaskService.CreateRoundTrip | src/services/api/taskService.js:159-193 | a created task reads back with the sent title, description, due date, farm, the priority or "medium", not completed, no completion time, and a crop exactly when one was sent |
| TaskService.CompleteRoundTrip | src/services/api/taskService.js:258-264 | a completed task reads back as the current task with `completed` negated, `completedAt` the time of the call when it becomes completed and none when it is reopened, and every other field unchanged |
| TaskService.CompleteTwice | src/services/api/taskService.js:258-264 | completing a task twice restores it, except that a task that was completed carries the second call's time as its completion time |
| TaskService.DecodedIsResolved | src/services/api/taskService.js:43-55 | every task read from a record whose lookups carry Ids is one that `CompleteRoundTrip` applies to |
| TaskService.UpcomingAreOpen | src/services/api/taskService.js:105-153 | when the store answers the upcoming query as asked, `getUpcoming` returns at most `limit` tasks, none completed and none due before now |
| TaskService.GetAll | src/services/api/taskService.js:18-60 | `getAll` (and `getUpcoming`) gives every fetched record decoded, in order, and `[]` when the read is refused or throws |
| TaskService.GetById | src/services/api/taskService.js:62-103 | `getById` gives the decoded record, fails with "Task with ID <id> not found" when no record comes back, and passes on the call's own error |
| TaskService.Create | src/services/api/taskService.js:155-201 | `create` succeeds exactly when the store accepts and returns a record, which is decoded; a refusal fails with the store's message, a missing record with "Failed to create task" |
| TaskService.Update | src/services/api/taskService.js:203-256 | `update` succeeds exactly when the store accepts and returns a record, which is decoded; a refusal fails with the store's message, a missing record with "Failed to update task" |
| TaskService.Delete | src/services/api/taskService.js:266-286 | `delete` gives whether the first result reports success (false without results); a refusal or an exception fails with its message |
| TransactionService.Decode | src/services/api/transactionService.js:41-50 | a transaction record reads with type defaulting to "expense", category and description to `''`, amount to 0; farmId is the farm lookup's Id as decimal text (`''` without one) and farmName its non-empty Name ("Unknown Farm" otherwise) |
| TransactionService.CreateRequest | src/services/api/transactionService.js:139-148 | `create` sends no Id, a type that is never empty and keeps a given one, the parsed amount or 0, and the farm Id parsed as an integer |
| TransactionService.UpdateRequest | src/services/api/transactionService.js:182-192 | `update` sends the given Id |
| TransactionService.UpdateIsCreatePlusId | src/services/api/transactionService.js:182-192 | `update` sends exactly the fields `create` sends, plus the Id |
| TransactionService.CreateRoundTrip | src/services/api/transactionService.js:139-168 | a created transaction reads back with the sent category, description, date and farm, the type or "expense", and the amount or 0 |
| TransactionService.DeleteResult | src/services/api/transactionService.js:222-241 | `delete` yields true exactly when the backend accepts and the first result reports success; an accepted delete without results yields false |
| TransactionService.GetAll | src/services/api/transactionService.js:18-55 | `getAll` (and `getByFarmId`) gives every fetched record decoded, in order, and `[]` when the read is refused or throws |
| TransactionService.GetById | src/services/api/transactionService.js:57-93 | `getById` gives the decoded record, fails with "Transaction with ID <id> not found" when no record comes back, and passes on the call's own error |
| TransactionService.Create | src/services/api/transactionService.js:135-176 | `create` succeeds exactly when the store accepts and returns a record, which is decoded; a refusal fails with the store's message, a missing record with "Failed to create transaction" |
| TransactionService.Update | src/services/api/transactionService.js:178-220 | `update` succeeds exactly when the store accepts and returns a record, which is decoded; a refusal fails with the store's message, a missing record with "Failed to update transaction" |
| TransactionService.Delete | src/services/api/transactionService.js:222-242 | `delete` gives whether the first result reports success (false without results); a refusal or an exception fails with its message |
| RotationService.Decode | src/services/api/rotationService.js:41-51 | a rotation record reads with previousCrop, status and notes defaulting to `''` and variety always `''`; farmId and cropId are the lookups' Ids as decimal text (`''` without one), farmName and cropName their non-empty Names ("Unknown Farm"/"Unknown Crop" otherwise) |
| RotationService.CreateRequest | src/services/api/rotationService.js:193-202 | `create` sends no Id and the farm and crop Ids parsed as integers |
| RotationService.UpdateRequest | src/services/api/rotationService.js:238-248 | `update` sends the given Id |
| RotationService.YearRangeIsYear | src/services/api/rotationService.js:145-160 | the closed range `year-01-01` to `year-12-31` holds exactly the valid dates of that year |
| RotationService.UpdateIsCreatePlusId | src/services/api/rotationService.js:238-248 | `update` sends exactly the fields `create` sends, plus the Id |
| RotationService.CreateRoundTrip | src/services/api/rotationService.js:193-224 | a created rotation reads back with the sent date, previous crop, status, notes, farm and crop |
| RotationService.ByYearInYear | src/services/api/rotationService.js:141-186 | when the store answers the year query as asked, every rotation `getByYear` returns is planned in that year |
| RotationService.GetAll | src/services/api/rotationService.js:18-57 | `getAll` (and `getByFarmId`, `getByYear`) gives every fetched record decoded, in order, and `[]` when the read is refused or throws |
| RotationService.GetById | src/services/api/rotationService.js:59-97 | `getById` gives the decoded record, fails with "Rotation with ID <id> not found" when no record comes back, and passes on the call's own error |
| RotationService.Create | src/services/api/rotationService.js:189-232 | `create` succeeds exactly when the store accepts and returns a record, which is decoded; a refusal fails with the store's message, a missing record with "Failed to create rotation" |
| RotationService.Update | src/services/api/rotationService.js:234-278 | `update` succeeds exactly when the store accepts and returns a record, which is decoded; a refusal fails with the store's message, a missing record with "Failed to update rotation" |
| RotationService.Delete | src/services/api/rotationService.js:280-300 | `delete` gives whether the first result reports success (false without results); a refusal or an exception fails with its message |
| WeatherService.KindOf | src/services/api/weatherService.js:109-118 | first match wins on the lower-cased condition: Clear exactly when "sunny" or "clear" is mentioned; Clouds exactly when not and "cloud" is; Rain, Storm, Snow and Fog exactly when no earlier word is and theirs is; Other exactly when none is |
| WeatherService.Icon | src/services/api/weatherService.js:109-118 | Sun exactly for "sunny"/"clear" or no known word; Cloud, CloudRain, CloudLightning, CloudSnow and CloudFog each exactly when their word ("cloud", "rain", "storm", "snow", "fog") is the first one mentioned |
| WeatherService.TempWord | src/services/api/weatherService.js:122 | warm exactly at 75 and above, comfortable exactly from 60 below 75, cool exactly from 45 below 60, cold exactly below 45: the bands are disjoint and cover every temperature |
| WeatherService.GetWeatherSummary | src/services/api/weatherService.js:138-144 | the summary echoes the location and the current temperature and condition, with the icon and sentence derived from them |
| WeatherService.TempWordMonotone | src/services/api/weatherService.js:122 | a warmer temperature never gets a colder word |
| WeatherService.CloudBeatsRain | src/services/api/weatherService.js:111-113 | a condition mentioning both cloud and rain (and not sunny or clear) gets the Cloud icon and the cloud sentence: earlier rules win |
| WeatherService.KindIgnoresCase | src/services/api/weatherService.js:110 | the condition's case does not change its class or icon |
| WeatherService.TemplateNamesBand | src/services/api/weatherService.js:125-135 | every summary template mentions "<word> temperatures" |
| WeatherService.SummaryNamesBand | src/services/api/weatherService.js:121-136 | every summary names the temperature's band |
| WeatherPage.Icon | src/components/pages/Weather.jsx:33-43 | the six known conditions map to their icons; any other condition gives "Sun" |
| WeatherPage.Advise | src/components/pages/Weather.jsx:45-109 | the advice the push-by-push procedure builds is the advice `AdviceFor` defines |
| WeatherPage.MissingInputGivesNothing | src/components/pages/Weather.jsx:46 | a missing reading or forecast gives no advice; with both present there is always some |
| WeatherPage.TemperatureRule | src/components/pages/Weather.jsx:51-65 | High Temperature exactly above 85, Frost exactly below 35, never both |
| WeatherPage.RainRule | src/components/pages/Weather.jsx:68-76 | Rain Expected exactly when some forecast day is "rainy" or "stormy" |
| WeatherPage.WindAndHumidityRules | src/components/pages/Weather.jsx:79-96 | High Wind exactly above 20, High Humidity exactly above 80 |
| WeatherPage.GoodConditionsRule | src/components/pages/Weather.jsx:99-106 | Good Conditions appears exactly when no other rule fired, and then alone |
| WeatherPage.AdviceOrderAndSize | src/components/pages/Weather.jsx:50-106 | advice comes in the order temperature, rain, wind, humidity (or Good Conditions), and there are at most 4 entries |
| CropTable.Badge | src/components/organisms/CropTable.jsx:9-26 | harvested crops show Harvested; otherwise the days to harvest pick exactly one of Overdue (< 0), Ready Soon (0-7), Growing (8-30) and Planted (> 30) |
| CropTable.Variant | src/components/organisms/CropTable.jsx:15-25 | Harvested is "success", Overdue and Ready Soon are both "warning", Growing is "info" and Planted is "default" |
| CropTable.VariantOfDays | src/components/organisms/CropTable.jsx:15-25 | a crop row is "success" exactly when harvested; otherwise "warning" up to seven days to harvest (overdue included), "info" from 8 to 30 days and "default" beyond |
| CropTable.UrgencyMonotone | src/components/organisms/CropTable.jsx:17-25 | for a crop not yet harvested, fewer days to harvest never give a less urgent badge |
| CropTable.Render | src/components/organisms/CropTable.jsx:28-37 | the empty state is shown exactly when there are no crops; otherwise one badge per crop, in order, each the crop's `Badge` |
| TaskItem.PriorityVariant | src/components/molecules/TaskItem.jsx:8-15 | high, medium and low priorities map to error, warning and info respectively; any other priority maps to default |
| TaskItem.OverdueOnlyIfOpen | src/components/molecules/TaskItem.jsx:17 | a completed task is never overdue; an open task whose due date has passed always is; a task not yet due never is |
| TaskList.FilterTasks | src/components/organisms/TaskList.jsx:13-20 | the filtered tasks are a subsequence of the tasks |
| TaskList.PriorityRank | src/components/organisms/TaskList.jsx:25 | only high, medium and low have a rank; any other priority has none |
| TaskList.Visible | src/components/organisms/TaskList.jsx:22-34 | the sorted list is a permutation of the filtered tasks |
| TaskList.StatusFiltersKeep | src/components/organisms/TaskList.jsx:14-15 | "completed" keeps exactly the completed tasks; "pending" keeps exactly the open ones |
| TaskList.CompletedAndPendingPartition | src/components/organisms/TaskList.jsx:14-15 | together, the completed and the pending views hold every task exactly once |
| TaskList.OverdueFilterMatchesBadge | src/components/organisms/TaskList.jsx:16-18 | the "overdue" view keeps exactly the tasks whose item shows them overdue, each as often as it occurs, and each of those is pending |
| TaskList.OtherFilterKeepsAll | src/components/organisms/TaskList.jsx:19 | any other filter value keeps every task in order |
| TaskList.OrderLe | src/components/organisms/TaskList.jsx:22-34 | the sort keeps `a` before `b` exactly when the comparator returns at most 0 |
| TaskList.DueDateSort | src/components/organisms/TaskList.jsx:27-28 | sorting by due date lists the earliest due first |
| TaskList.PrioritySort | src/components/organisms/TaskList.jsx:24-26 | sorting by priority lists the highest first when every priority is known |
| TaskList.TitleSort | src/components/organisms/TaskList.jsx:29-30 | sorting by title lists titles in the order of the collation |
| TaskList.UnknownSortKeepsOrder | src/components/organisms/TaskList.jsx:31-32 | any other sort key keeps the filtered order, since the sort is stable |
| TransactionTable.FilterTransactions | src/components/organisms/TransactionTable.jsx:13-17 | the filtered transactions are a subsequence of the transactions |
| TransactionTable.Visible | src/components/organisms/TransactionTable.jsx:19-30 | the sorted list is a permutation of the filtered transactions |
| TransactionTable.BadgeVariant | src/components/organisms/TransactionTable.jsx:32-34 | the badge is success exactly for income; otherwise it is error |
| TransactionTable.Sign | src/components/organisms/TransactionTable.jsx:120 | the amount is signed + exactly for income; otherwise it is signed - |
| TransactionTable.TypeFilterKeeps | src/components/organisms/TransactionTable.jsx:13-17 | "income" and "expense" keep exactly the transactions of that type, each as often as it occurs; any other filter keeps everything |
| TransactionTable.BadgeMatchesSign | src/components/organisms/TransactionTable.jsx:32-34 | the badge shows success exactly when the amount is signed + |
| TransactionTable.OrderLe | src/components/organisms/TransactionTable.jsx:19-30 | the sort keeps `a` before `b` exactly when the comparator returns at most 0 |
| TransactionTable.AmountSort | src/components/organisms/TransactionTable.jsx:21-22 | sorting by amount lists the largest first |
| TransactionTable.DateSort | src/components/organisms/TransactionTable.jsx:23-24 | sorting by date lists the newest first |
| TransactionTable.CategorySort | src/components/organisms/TransactionTable.jsx:25-26 | sorting by category lists categories in the order of the collation |
| TransactionTable.UnknownSortKeepsOrder | src/components/organisms/TransactionTable.jsx:27-28 | any other sort key keeps the filtered order |
| FinancialSummary.SummaryOf | src/components/organisms/FinancialSummary.jsx:7-40 | the net profit is total income minus total expenses, and the month's profit is the month's income minus its expenses |
| FinancialSummary.TotalsAppend | src/components/organisms/FinancialSummary.jsx:17-23 | income and expense totals over two lists joined are the sums of the totals of each |
| FinancialSummary.OneTransaction | src/components/organisms/FinancialSummary.jsx:17-23 | one more transaction adds its amount to the income total if it is income, to the expense total if it is an expense, and to neither otherwise |
| FinancialSummary.EmptySummary | src/components/organisms/FinancialSummary.jsx:17-39 | with no transactions every figure is 0 |
| FinancialSummary.MonthlyIsSubsequence | src/components/organisms/FinancialSummary.jsx:11-15 | the month's transactions are exactly those of the current month and year, in order, and the monthly figures are their totals |
| FinancialSummary.MonthlyNotAboveTotal | src/components/organisms/FinancialSummary.jsx:25-31 | with amounts that are not negative, the month's income and expenses never exceed the all-time totals |
| FinancialSummary.Series | src/components/organisms/FinancialSummary.jsx:43-54 | there is one chart value per category label |
| FinancialSummary.CategoryData | src/components/organisms/FinancialSummary.jsx:43-54 | the loop over the expenses builds the labels and the per-category sums |
| FinancialSummary.CategoriesMembers | src/components/organisms/FinancialSummary.jsx:46-49 | the category keys are exactly the categories that occur |
| FinancialSummary.CategoriesDistinct | src/components/organisms/FinancialSummary.jsx:46-49 | no category key occurs twice |
| FinancialSummary.CategorySumAbsent | src/components/organisms/FinancialSummary.jsx:47 | a category that never occurs sums to 0 |
| FinancialSummary.LabelsAreExpenseCategories | src/components/organisms/FinancialSummary.jsx:44-53 | the labels are exactly the categories of expenses, each once |
| FinancialSummary.SumCategoriesStep | src/components/organisms/FinancialSummary.jsx:47 | adding one transaction raises the per-category sums by its amount exactly when its category is a label |
| FinancialSummary.CategoryTotalsAddUp | src/components/organisms/FinancialSummary.jsx:46-49 | the per-category sums add up to the sum of all amounts |
| FinancialSummary.SeriesSum | src/components/organisms/FinancialSummary.jsx:52 | a series holding each label's sum adds up to the sum over the labels |
| FinancialSummary.SeriesAddsUpToExpenses | src/components/organisms/FinancialSummary.jsx:43-54 | the pie chart's values add up to the total expenses |
| FinancialSummary.ChartShownIffExpense | src/components/organisms/FinancialSummary.jsx:177 | the category chart is shown exactly when there is at least one expense |
| Dashboard.StatsOf | src/components/pages/Dashboard.jsx:62-80 | the farm and crop counts are the list lengths; the active tasks are the open upcoming tasks, no more than the upcoming tasks |
| Dashboard.Trend | src/components/pages/Dashboard.jsx:145-148 | the trend is positive exactly when the net profit is not negative, labelled "Profitable", else "Loss" |
| Dashboard.SortedByPlanting | src/components/pages/Dashboard.jsx:84 | the sorted crops are a permutation of the crops |
| Dashboard.FirstFive | src/components/pages/Dashboard.jsx:85 | the slice holds five crops, or all of them when there are fewer |
| Dashboard.DashboardData.constructor | src/components/pages/Dashboard.jsx:35-49 | the dashboard holds the four lists that were loaded |
| Dashboard.DashboardData.RecentCrops | src/components/pages/Dashboard.jsx:82-86 | the crop list is sorted in place, newest planting first, and the first five are returned |
| Dashboard.NetProfitMatchesSummary | src/components/pages/Dashboard.jsx:66-72 | the dashboard's net profit equals the financial summary's net profit |
| Dashboard.AllUpcomingActive | src/components/pages/Dashboard.jsx:65 | when every upcoming task is open, all of them count as active |
| Dashboard.NewestFirstLe | src/components/pages/Dashboard.jsx:84 | the sort keeps `a` before `b` exactly when `b` was planted no later than `a` |
| Dashboard.SortedNewestFirst | src/components/pages/Dashboard.jsx:84 | the sorted crops are in order from newest to oldest planting |
| Dashboard.PrefixIsNewest | src/components/pages/Dashboard.jsx:85 | in a list sorted newest first, nothing left out of a prefix was planted later than anything in it |
| Dashboard.RecentAreMostRecent | src/components/pages/Dashboard.jsx:82-86 | the recent crops are at most five, newest first, and no crop left out was planted later than any shown |
| CropRotationPage.FilteredRotations | src/components/pages/CropRotation.jsx:98-114 | the filtered rotations are never more than the rotations |
| CropRotationPage.MonthlyRotations | src/components/pages/CropRotation.jsx:116-135 | there are twelve buckets, the m-th for month m of the selected year |
| CropRotationPage.FilteredMembers | src/components/pages/CropRotation.jsx:98-114 | the filtered rotations are the rotations, in order and each as often as it occurs, of the selected farm (any farm when none is selected) and, in the calendar view only, of the selected year |
| CropRotationPage.FilteredIsListed | src/components/pages/CropRotation.jsx:98-114 | the farm filter followed by the year filter is one filter by both conditions |
| CropRotationPage.ListViewShowsAll | src/components/pages/CropRotation.jsx:101-111 | in the list view with no farm selected every rotation is shown |
| CropRotationPage.BucketMembers | src/components/pages/CropRotation.jsx:123-128 | a month's bucket holds exactly the filtered rotations planned in that month of the selected year, in order |
| CropRotationPage.OneBucketEach | src/components/pages/CropRotation.jsx:123-128 | a filtered rotation planned in the selected year lies in exactly one bucket, its month's |
| CropRotationPage.MonthsTotalStep | src/components/pages/CropRotation.jsx:124-127 | one more rotation adds one to the count over the first n months exactly when it is planned in one of them |
| CropRotationPage.MonthsTotalIsYear | src/components/pages/CropRotation.jsx:124-127 | over all twelve months the count is the number of rotations planned in the year |
| CropRotationPage.MonthsTotalZero | src/components/pages/CropRotation.jsx:124-127 | no rotations give a count of 0 over any number of months |
| CropRotationPage.BucketTotalPrefix | src/components/pages/CropRotation.jsx:123-134 | the sizes of the first n buckets add up to the filtered rotations planned in the first n months |
| CropRotationPage.CalendarCountsEachOnce | src/components/pages/CropRotation.jsx:116-135 | in the calendar view the twelve buckets together hold every filtered rotation exactly once |
| CropRotationPage.Page.constructor | src/components/pages/CropRotation.jsx:17-24 | the page starts with no rotations, no farm selected, the current year and the calendar view |
| CropRotationPage.Page.Load | src/components/pages/CropRotation.jsx:30-50 | the loaded rotations replace the list; the selections are kept |
| CropRotationPage.Page.SelectFarm | src/components/pages/CropRotation.jsx:189 | only the selected farm changes |
| CropRotationPage.Page.SelectYear | src/components/pages/CropRotation.jsx:201 | only the selected year changes |
| CropRotationPage.Page.SelectView | src/components/pages/CropRotation.jsx:215 | only the view mode changes |
| CropRotationPage.Page.AddRotation | src/components/pages/CropRotation.jsx:56-65 | a created rotation is appended; on an error the list is unchanged |
| CropRotationPage.Page.EditRotation | src/components/pages/CropRotation.jsx:67-77 | the entries with the edited rotation's `Id` become the updated rotation; on an error the list is unchanged |
| CropRotationPage.Page.DeleteRotation | src/components/pages/CropRotation.jsx:79-91 | a confirmed, successful delete removes the entries with that `Id`; otherwise the list is unchanged |
| RotationForm.Set | src/components/pages/CropRotation.jsx:468-470 | the changed field takes the value and every other field keeps its own |
| RotationForm.Errors | src/components/pages/CropRotation.jsx:435-450 | a field has an error exactly when it is one of farm, crop and planned date and is empty; each error is that field's message |
| RotationForm.Validate | src/components/pages/CropRotation.jsx:435-450 | the checks, run one after another, report exactly `Errors` |
| RotationForm.PassesIffComplete | src/components/pages/CropRotation.jsx:449 | the form passes exactly when farm, crop and planned date are all given |
| RotationForm.BlankReportsAllRequired | src/components/pages/CropRotation.jsx:412-419 | submitting the blank form reports every required field |
| RotationForm.ChangeAffectsOnlyItsError | src/components/pages/CropRotation.jsx:435-450 | changing one field cannot change whether any other field has an error |
| RotationForm.FromRotation | src/components/pages/CropRotation.jsx:422-433 | editing starts from the rotation's farm, crop and formatted date, with a missing status read as "planned" |
| RotationForm.EditingStartsComplete | src/components/pages/CropRotation.jsx:422-449 | a rotation with farm, crop and date opens a form that passes validation |
| RotationForm.Form.constructor | src/components/pages/CropRotation.jsx:412-433 | a new form is blank, an edit form is filled from the rotation, with no errors shown |
| RotationForm.Form.Change | src/components/pages/CropRotation.jsx:467-474 | the field takes the value and its error is cleared |
| RotationForm.Form.Submit | src/components/pages/CropRotation.jsx:452-465 | the form is submitted exactly when complete; it sends the fields with the date parsed, plus the `Id` only when editing |
| Forms.ClearError | src/components/organisms/CropForm.jsx:92-99 | typing in a field blanks that field's message and leaves every other message as it was |
| Forms.Check | src/components/organisms/CropForm.jsx:39-41 | a failed check records its message for the field; a passed one changes nothing; other fields keep their messages |
| Forms.CheckStep | src/components/organisms/CropForm.jsx:36-67 | after one more check, the errors report exactly the failing fields among those checked so far |
| Forms.ReportsDone | src/components/organisms/CropForm.jsx:36-71 | once every field that can fail has been checked, the errors are exactly the failing fields with their messages |
| Forms.ClearErrorDisplay | src/components/organisms/CropForm.jsx:96-98 | clearing one field's message never shows or hides another field's message, and a form showing no messages keeps showing none |
| CropForm.Set | src/components/organisms/CropForm.jsx:92-94 | the changed field takes the value and every other field keeps its own |
| CropForm.Errors | src/components/organisms/CropForm.jsx:36-71 | a field has an error exactly when its check fails; each error is that field's message, the harvest message depending on which harvest check failed |
| CropForm.Validate | src/components/organisms/CropForm.jsx:36-71 | the checks, run one after another, report exactly `Errors` |
| CropForm.ReportedAll | src/components/organisms/CropForm.jsx:36-71 | once every checked field is accounted for, the errors are `Errors` |
| CropForm.HarvestChecks | src/components/organisms/CropForm.jsx:55-63 | the two harvest checks, the second overwriting the first, together report the harvest field correctly |
| CropForm.PassesIffAcceptable | src/components/organisms/CropForm.jsx:70 | the form passes exactly when farm, name, variety, both dates and a positive area are given and the harvest comes after the planting |
| CropForm.HarvestOrderReported | src/components/organisms/CropForm.jsx:59-63 | with both dates given and the harvest not after the planting, the harvest field reports the ordering message |
| CropForm.EditRoundTrip | src/components/organisms/CropForm.jsx:22-34 | a crop opened for editing and submitted untouched is sent back with the same fields, when the renderings read back |
| CropForm.FromCrop | src/components/organisms/CropForm.jsx:22-34 | editing starts from the crop's farm, name, variety, formatted dates and rendered area, with a missing status read as "planted" |
| CropForm.Payload | src/components/organisms/CropForm.jsx:81-87 | the fields are sent as entered, with the dates read and the area parsed |
| CropForm.Form.constructor | src/components/organisms/CropForm.jsx:10-34 | a new form is blank, an edit form is filled from the crop, with no errors shown |
| CropForm.Form.Change | src/components/organisms/CropForm.jsx:92-99 | the field takes the value and its error is cleared |
| CropForm.Form.Submit | src/components/organisms/CropForm.jsx:73-90 | the form is submitted exactly when acceptable; it sends the payload, plus the `Id` only when editing |
| TransactionForm.CurrentCategories | src/components/organisms/TransactionForm.jsx:101-103 | income offers the income categories; every other type offers the expense categories |
| TransactionForm.CategoryListsShareOnlyOther | src/components/organisms/TransactionForm.jsx:21-28 | "other" is always offered, and it is the only category in both lists |
| TransactionForm.Set | src/components/organisms/TransactionForm.jsx:88-94 | the changed field takes the value and every other field keeps its own |
| TransactionForm.Changed | src/components/organisms/TransactionForm.jsx:88-94 | a change of type also empties the category; any other change touches only its field |
| TransactionForm.Errors | src/components/organisms/TransactionForm.jsx:43-68 | a field has an error exactly when its check fails; each error is that field's message |
| TransactionForm.Validate | src/components/organisms/TransactionForm.jsx:43-68 | the checks, run one after another, report exactly `Errors` |
| TransactionForm.ReportedAll | src/components/organisms/TransactionForm.jsx:43-68 | once every checked field is accounted for, the errors are `Errors` |
| TransactionForm.PassesIffAcceptable | src/components/organisms/TransactionForm.jsx:67 | the form passes exactly when farm, category, a positive amount, a non-blank description and a date are given |
| TransactionForm.TypeChangeNeedsNewCategory | src/components/organisms/TransactionForm.jsx:93 | right after a change of type the category is reported missing and the form cannot pass |
| TransactionForm.EditRoundTrip | src/components/organisms/TransactionForm.jsx:30-41 | a transaction opened for editing and submitted untouched is sent back with the same fields, when the renderings read back |
| TransactionForm.FromTransaction | src/components/organisms/TransactionForm.jsx:30-41 | editing starts from the transaction's farm, category, description, rendered amount and formatted date, with a missing type read as "expense" |
| TransactionForm.Payload | src/components/organisms/TransactionForm.jsx:78-83 | the fields are sent as entered, with the date read and the amount parsed |
| TransactionForm.Form.constructor | src/components/organisms/TransactionForm.jsx:10-41 | a new form is blank with type "expense" and today's date; an edit form is filled from the transaction; no errors are shown |
| TransactionForm.Form.Change | src/components/organisms/TransactionForm.jsx:88-99 | the form becomes `Changed` and the field's error is cleared |
| TransactionForm.Form.Submit | src/components/organisms/TransactionForm.jsx:70-86 | the form is submitted exactly when acceptable; it sends the payload, plus the `Id` only when editing |
| FarmForm.Set | src/components/organisms/FarmForm.jsx:86-88 | the changed field takes the value and every other field keeps its own |
| FarmForm.Errors | src/components/organisms/FarmForm.jsx:50-67 | a field has an error exactly when its check fails; each error is that field's message |
| FarmForm.Validate | src/components/organisms/FarmForm.jsx:50-67 | the checks, run one after another, report exactly `Errors` |
| FarmForm.ReportedAll | src/components/organisms/FarmForm.jsx:50-67 | once every checked field is accounted for, the errors are `Errors` |
| FarmForm.PassesIffAcceptable | src/components/organisms/FarmForm.jsx:66 | the form passes exactly when name and location are not blank and a positive size is given |
| FarmForm.SummaryText | src/components/organisms/FarmForm.jsx:45 | the summary field starts from the farm's text, the looked-up report's sentence, or nothing |
| FarmForm.EditRoundTrip | src/components/organisms/FarmForm.jsx:38-48 | a farm opened for editing and submitted untouched is sent back with the same fields and its summary text trimmed |
| FarmForm.FromFarm | src/components/organisms/FarmForm.jsx:38-48 | corrected reading (second Findings row): editing starts from the farm's name, location, rendered size and soil type ("loam" when missing), and a summary field holding the summary text, the looked-up report's sentence, or nothing |
| FarmForm.Payload | src/components/organisms/FarmForm.jsx:77-82 | the fields are sent as entered, with the size parsed and the summary trimmed, which is empty exactly when the field is blank |
| FarmForm.SummaryFieldAsWritten | src/components/organisms/FarmForm.jsx:45 | as written, the field takes whatever the farm holds, a report object included; only null becomes "" |
| FarmForm.SubmittedSummaryAsWritten | src/components/organisms/FarmForm.jsx:80 | as written, a summary can be trimmed and sent only when it is text |
| FarmForm.ReportSummaryBreaksEdit | src/components/organisms/FarmForm.jsx:45-80 | a farm holding a report cannot be submitted as written, while the corrected form sends the report's sentence |
| FarmForm.SummaryTextAgreesOnText | src/components/organisms/FarmForm.jsx:45-80 | for text and null summaries the code as written and the corrected form send the same thing |
| FarmForm.Form.constructor | src/components/organisms/FarmForm.jsx:27-48 | a new form is blank with soil type "loam"; an edit form is filled from the farm; no errors are shown |
| FarmForm.Form.Change | src/components/organisms/FarmForm.jsx:86-92 | the field takes the value and its error is cleared |
| FarmForm.Form.Submit | src/components/organisms/FarmForm.jsx:69-84 | the form is submitted exactly when acceptable; it sends the payload, plus the `Id` only when editing |
| FarmForm.Form.GenerateWeather | src/components/organisms/FarmForm.jsx:94-132 | refused, the form untouched, exactly when the location is blank; otherwise a generated summary replaces the summary field and nothing else |
| TaskForm.Set | src/components/organisms/TaskForm.jsx:87-89 | the changed field takes the value and every other field keeps its own |
| TaskForm.FarmCrops | src/components/organisms/TaskForm.jsx:37 | the farm's crops are never more than the crops |
| TaskForm.FarmCropsMembers | src/components/organisms/TaskForm.jsx:37 | the crops offered are exactly the crops of the chosen farm, in order, each as often as it occurs |
| TaskForm.Restrict | src/components/organisms/TaskForm.jsx:35-47 | the corrected reading of :40 (first Findings row): only the crop field may change; without a farm nothing is offered and the crop is cleared; with one, the farm's crops are offered |
| TaskForm.RestrictKeepsOnlyFarmCrops | src/components/organisms/TaskForm.jsx:40-42 | the chosen crop is kept exactly when it is empty or a crop of the chosen farm, and afterwards it is always empty or such a crop |
| TaskForm.RestrictIdempotent | src/components/organisms/TaskForm.jsx:35-47 | restricting twice is the same as restricting once |
| TaskForm.RestrictAsWrittenDropsFarmCrop | src/components/organisms/TaskForm.jsx:40 | as written, crop 7 of farm 1 is dropped from a form for farm 1, where the corrected check keeps it |
| TaskForm.RestrictAsWrittenAlwaysEmpties | src/components/organisms/TaskForm.jsx:40-42 | as written, the crop field is emptied whenever the effect runs, while the same crops are offered |
| TaskForm.Errors | src/components/organisms/TaskForm.jsx:49-66 | a field has an error exactly when its check fails; each error is that field's message |
| TaskForm.Validate | src/components/organisms/TaskForm.jsx:49-66 | the checks, run one after another, report exactly `Errors` |
| TaskForm.ReportedAll | src/components/organisms/TaskForm.jsx:49-66 | once every checked field is accounted for, the errors are `Errors` |
| TaskForm.PassesIffAcceptable | src/components/organisms/TaskForm.jsx:65 | the form passes exactly when a farm, a non-blank title and a due date are given |
| TaskForm.Payload | src/components/organisms/TaskForm.jsx:77-82 | an empty crop is sent as null and any other as itself; `completed` is the edited task's flag, false for a new task |
| TaskForm.FromTask | src/components/organisms/TaskForm.jsx:22-33 | editing starts from the task's farm, crop (empty without one), title, description and formatted due date, with a missing priority read as "medium" |
| TaskForm.Opened | src/components/organisms/TaskForm.jsx:10-47 | once the mount effects have run, nothing is offered and the crop is empty: a new form is blank, an edit form holds the task's fields without its crop |
| TaskForm.EditOpensWithoutCrop | src/components/organisms/TaskForm.jsx:22-47 | an edit form loses the task's non-empty crop at mount; the restriction's second run, after the farm changed from "", offers the farm's crops and keeps the crop empty |
| TaskForm.EditRoundTrip | src/components/organisms/TaskForm.jsx:22-82 | a task opened for editing and submitted untouched is sent back with the same title, description, due date, priority, farm and completion flag, but with crop `null`, so the edit's write carries no crop link |
| TaskForm.EditRestampsCompletion | src/components/organisms/TaskForm.jsx:80 | saving an edit of a completed task stamps its completion time with the time of the edit; saving an open task clears it |
| TaskForm.Form.constructor | src/components/organisms/TaskForm.jsx:10-47 | the form as mounted is `Opened`'s: blank with priority "medium" for a new task, the task's fields without its crop for an edit; no errors and no crops offered |
| TaskForm.Form.Change | src/components/organisms/TaskForm.jsx:87-94 | the field takes the value and its error is cleared |
| TaskForm.Form.RestrictCrops | src/components/organisms/TaskForm.jsx:35-47 | the corrected reading of :40 (first Findings row): the form and the crops offered become `Restrict`'s; errors are unchanged |
| TaskForm.Form.Submit | src/components/organisms/TaskForm.jsx:68-85 | the form is submitted exactly when acceptable; it sends the payload, plus the `Id` only when editing |
| PageState.Replaced | src/components/pages/Crops.jsx:84-86 | the list keeps its length; entries with the updated `Id` become the updated record and all others stay in place |
| PageState.Removed | src/components/pages/Crops.jsx:101 | the list after a delete is never longer |
| PageState.RemovedKeepsOthers | src/components/pages/Crops.jsx:101 | a delete keeps exactly the records with another `Id`, in order, each as often as it occurs |
| PageState.RemovedTwice | src/components/pages/Crops.jsx:101 | deleting the same `Id` twice is the same as deleting it once |
| PageState.ReplacedAbsent | src/components/pages/Crops.jsx:84-86 | updating an `Id` that is not listed changes nothing |
| PageState.RemovedAfterReplaced | src/components/pages/Crops.jsx:84-101 | deleting a record after updating it leaves what deleting it at once would have left |
| PageState.AppendedThenRemoved | src/components/pages/Crops.jsx:73-101 | deleting a record just added leaves the list without that `Id`, as if it had not been added |
| CropsPage.Visible | src/components/pages/Crops.jsx:50-68 | the shown crops are never more than the crops |
| CropsPage.VisibleMembers | src/components/pages/Crops.jsx:50-68 | the shown crops are the crops, in order and each as often as it occurs, that match a non-empty term in name, variety or farm name ignoring case, and have the chosen status unless it is "all" |
| CropsPage.VisibleIsShown | src/components/pages/Crops.jsx:50-68 | the guarded search and status filters together are one filter by both conditions |
| CropsPage.EmptySearchKeepsAll | src/components/pages/Crops.jsx:54-58 | searching for "" would keep every crop, so the empty-term guard changes nothing; no term and "all" show every crop |
| CropsPage.FiltersCommute | src/components/pages/Crops.jsx:54-65 | the search and the status filter can be applied in either order |
| CropsPage.Page.constructor | src/components/pages/Crops.jsx:17-23 | the page starts empty, with no search term and status "all" |
| CropsPage.Page.Load | src/components/pages/Crops.jsx:28-48 | the loaded crops and farms replace the lists; the search and filter are kept |
| CropsPage.Page.Search | src/components/pages/Crops.jsx:175-176 | only the search term changes |
| CropsPage.Page.FilterStatus | src/components/pages/Crops.jsx:181-182 | only the status filter changes |
| CropsPage.Page.AddCrop | src/components/pages/Crops.jsx:70-79 | a created crop is appended; on an error the list is unchanged |
| CropsPage.Page.EditCrop | src/components/pages/Crops.jsx:81-92 | the entries with the updated crop's `Id` become it; on an error the list is unchanged |
| CropsPage.Page.DeleteCrop | src/components/pages/Crops.jsx:94-106 | a confirmed, successful delete removes the entries with that `Id`; otherwise the list is unchanged |
| FinancesPage.Visible | src/components/pages/Finances.jsx:49-57 | the shown transactions are never more than the transactions |
| FinancesPage.VisibleMembers | src/components/pages/Finances.jsx:49-57 | the shown transactions are those, in order and each as often as it occurs, whose description, category, farm name or type contains the term ignoring case |
| FinancesPage.EmptySearchKeepsAll | src/components/pages/Finances.jsx:49-57 | with no term every transaction is shown |
| FinancesPage.TypeSearchFindsType | src/components/pages/Finances.jsx:54 | searching for a transaction's own type always finds it |
| FinancesPage.Page.constructor | src/components/pages/Finances.jsx:17-22 | the page starts empty with no search term |
| FinancesPage.Page.Load | src/components/pages/Finances.jsx:27-47 | the loaded transactions and farms replace the lists; the search is kept |
| FinancesPage.Page.Search | src/components/pages/Finances.jsx:167-168 | only the search term changes |
| FinancesPage.Page.AddTransaction | src/components/pages/Finances.jsx:59-68 | a created transaction is appended; on an error the list is unchanged |
| FinancesPage.Page.EditTransaction | src/components/pages/Finances.jsx:70-81 | the entries with the updated transaction's `Id` become it; on an error the list is unchanged |
| FinancesPage.Page.DeleteTransaction | src/components/pages/Finances.jsx:83-95 | a confirmed, successful delete removes the entries with that `Id`; otherwise the list is unchanged |
| TasksPage.Visible | src/components/pages/Tasks.jsx:52-60 | the shown tasks are never more than the tasks |
| TasksPage.VisibleMembers | src/components/pages/Tasks.jsx:52-60 | the shown tasks are those, in order and each as often as it occurs, whose title, description, farm name or crop name contains the term ignoring case; a task without a crop name is found only through the other three |
| TasksPage.EmptySearchKeepsAll | src/components/pages/Tasks.jsx:52-60 | with no term every task is shown |
| TasksPage.Page.constructor | src/components/pages/Tasks.jsx:17-23 | the page starts empty with no search term |
| TasksPage.Page.Load | src/components/pages/Tasks.jsx:28-50 | the loaded tasks, farms and crops replace the lists; the search is kept |
| TasksPage.Page.Search | src/components/pages/Tasks.jsx:181-182 | only the search term changes |
| TasksPage.Page.AddTask | src/components/pages/Tasks.jsx:62-71 | a created task is appended; on an error the list is unchanged |
| TasksPage.Page.EditTask | src/components/pages/Tasks.jsx:73-84 | the entries with the updated task's `Id` become it; on an error the list is unchanged |
| TasksPage.Page.CompleteTask | src/components/pages/Tasks.jsx:86-96 | the entries with the toggled task's `Id` become it; on an error the list is unchanged |
| TasksPage.Page.DeleteTask | src/components/pages/Tasks.jsx:98-110 | a confirmed, successful delete removes the entries with that `Id`; otherwise the list is unchanged |
| FarmsPage.WithWeather | src/components/pages/Farms.jsx:33-39 | each farm keeps its fields and gets the looked-up report as its summary, or null when the lookup fails |
| FarmsPage.Loaded | src/components/pages/Farms.jsx:32-40 | one farm per fetched farm, in order, each `WithWeather` |
| FarmsPage.LoadedShape | src/components/pages/Farms.jsx:29-43 | loading keeps every field but the summary, which is null exactly when the lookup failed and is never text |
| FarmsPage.LoadedFarmsBreakEdit | src/components/pages/Farms.jsx:33-36 | a loaded farm whose lookup succeeded cannot be submitted from the edit form as written, while the corrected form sends the report's sentence |
| FarmsPage.Visible | src/components/pages/Farms.jsx:56-63 | the shown farms are never more than the farms |
| FarmsPage.VisibleMembers | src/components/pages/Farms.jsx:56-63 | the shown farms are those, in order and each as often as it occurs, whose name, location or soil type contains the term ignoring case |
| FarmsPage.EmptySearchKeepsAll | src/components/pages/Farms.jsx:56-63 | with no term every farm is shown |
| FarmsPage.Page.constructor | src/components/pages/Farms.jsx:16-20 | the page starts with no farms and no search term |
| FarmsPage.Page.Load | src/components/pages/Farms.jsx:25-50 | the farms become the fetched farms, each with its looked-up summary; the search is kept |
| FarmsPage.Page.Search | src/components/pages/Farms.jsx:162-163 | only the search term changes |
| FarmsPage.Page.AddFarm | src/components/pages/Farms.jsx:65-74 | a created farm is appended; on an error the list is unchanged |
| FarmsPage.Page.EditFarm | src/components/pages/Farms.jsx:76-87 | the entries with the updated farm's `Id` become it; on an error the list is unchanged |
| FarmsPage.Page.DeleteFarm | src/components/pages/Farms.jsx:89-101 | a confirmed, successful delete removes the entries with that `Id`; otherwise the list is unchanged |
| Text.Lower | src/components/pages/Crops.jsx:56 | lower-casing keeps the length and lower-cases each character |
| Text.SearchIgnoresCase | src/components/pages/Crops.jsx:56-58 | a search finds the same records whatever the case of the term |
| Text.LowerIdempotent | src/components/pages/Crops.jsx:56 | lower-casing twice is lower-casing once |
| Text.TrimShape | src/components/organisms/CropForm.jsx:43 | trimming removes exactly the leading and trailing white space |
| Text.TrimEmptyIffBlank | src/components/organisms/CropForm.jsx:43 | the trimmed text is empty exactly when the text is all white space |
| Text.IdTextRoundTrip | src/services/api/cropService.js:50 | an `Id` rendered as text (`toString`) reads back through `parseInt` as itself |
| Text.IdTextInjective | src/services/api/cropService.js:50 | two `Id`s render to the same text only when they are equal |
| Dates.Compare | src/components/organisms/TaskList.jsx:28 | the comparison is negative, zero or positive exactly when the first date is earlier, the same or later |
| Dates.BeforeIsStrictTotalOrder | src/components/organisms/TaskList.jsx:28 | "earlier than" is irreflexive, transitive and total |
| Text.ParseInt | src/services/api/cropService.js:153 | `parseInt` gives no number exactly when the text is empty or does not start with a digit; `ParseIntReadsLeadingDigits` gives the number it reads |
| Text.ParseIntReadsLeadingDigits | src/services/api/cropService.js:153 | `parseInt` reads the value of the leading run of digits and ignores whatever follows it |
| Text.DigitPrefixOf | src/services/api/cropService.js:153 | the digits `parseInt` reads are exactly the leading run of digits |
| Sorting.SortWith | src/components/organisms/TaskList.jsx:22 | sorting with a comparator gives a permutation of the list |
| Sorting.SortWithSorted | src/components/organisms/TaskList.jsx:22 | with a comparator that orders the elements consistently, the result is in comparator order |
| Sorting.SortWithKeepsOrder | src/components/organisms/TaskList.jsx:22 | a comparator that finds every pair equal leaves the list as it was, since the sort is stable |

## Left out

- Rendering: JSX markup, styling, colour lookups (`getCropColor`), the presentational components, routing, authentication, toasts and loading/error screens.
- `window.confirm` is the `confirmed` parameter of each delete handler.
- The record store's SDK (`fetchRecords`, `getRecordById`, `createRecord`, `updateRecord`, `deleteRecord`) and the lazy `initializeClient`. Each call's answer is an input value; only the mapping and the error policy around it are modelled.
- The AI weather generation call in `FarmForm.handleGenerateWeather` (src/components/organisms/FarmForm.jsx:100-132). Its answer is the `generated` parameter, where `None` covers an unavailable client, a refusal and an exception. Only the blank-location guard and the field update are modelled.
- Async machinery: `async`/`await`, `Promise.all`, the `setTimeout` delay in `weatherService`, and the loading flags. Each handler is one sequential step.
- `useEffect` scheduling is modelled only for the task form's mount (`TaskForm.Opened`): both effects run at mount, the restriction's first run sees the initial form with no farm and clears the crop after the edit initialisation has filled it. Later runs of the restriction are the separate step `TaskForm.Form.RestrictCrops`, taken when the farm or the crop list changes.
- `new Date(text)`, time zones, `date-fns` formatting and `differenceInDays` are parameters (`parse`, `format`, `daysToHarvest`). The clock is the `now` parameter.
- The view records always carry their dates, so the edit forms' fallbacks for a missing date (`date ? format(date) : ""`) are not modelled.
- Floating point: amounts, sizes, areas and temperatures are integers, and `toLocaleString` output is not modelled.
- NaN: `parseFloat` giving `NaN` is `None`. As in the source, `NaN <= 0` is false, so such a value passes the positivity check (`Forms.NotPositive`).
- `toLowerCase` folds ASCII letters only, with no Unicode case mapping.
- `parseInt` reads a leading run of decimal digits. Leading white space, signs and other radixes are not modelled.
- `localeCompare` is the abstract `collate` parameter. `Text.CodeUnitCompare` is one instance and is proved to be a collation.
- TaskList.PrioritySort: requires every priority to be high, medium or low. For any other priority the source's comparator returns `NaN`, which gives no ordering to state.
- Object key order: the expense-by-category labels follow first occurrence, as `Object.keys` does for non-numeric keys. Categories that look like array indices are not modelled.
- `weatherService.getWeatherData` returns copies of its stored readings. The model works on values, so a copy is the value itself and aliasing is not modelled.
- Dashboard.DashboardData.RecentCrops: sorts the page's crop list in place, as the source does. That the same array is shared with the React state is not modelled.
- The store's query filters (for example `getByFarm`, `getUpcoming` and the rotation year range) are predicates on the answer. The store itself is not modelled.
- The Farms page's loader catches a failure of `farmService.getAll`. That failure cannot happen, because `getAll` already answers `[]` on failure, so the branch is not modelled.
- Several properties are empty-bodied lemmas because they follow directly from the definitions. Examples are `FarmForm.EditRoundTrip`, `TaskForm.EditRestampsCompletion` and `FarmsPage.LoadedFarmsBreakEdit`.

## Findings

| source | as written | input that shows it | evidently intended | confidence | as-written member | corrected member |
|---|---|---|---|---|---|---|
| src/components/organisms/TaskForm.jsx:40 | `crop.Id === formData.cropId` compares a numeric `Id` with the form's text crop Id, so it is never true, and the effect empties any chosen crop | farm "1" with crop `Id` 7; the form has farmId "1" and cropId "7"; the crop is cleared | keep a chosen crop that belongs to the selected farm (compare against the Id's text) | not executed; the input cannot be reached from the Tasks page as written, since an edit form has already lost its crop at mount (:43-45), a new form reruns the effect only when the farm changes (which also changes the farm the crop must belong to), and the crop list stays the same while the form is open | TaskForm.RestrictAsWrittenDropsFarmCrop | TaskForm.RestrictKeepsOnlyFarmCrops |
| src/components/organisms/FarmForm.jsx:45 | the Farms page stores the looked-up weather object in `weatherSummary` (src/components/pages/Farms.jsx:35-36); the edit form copies the object into its text field and `handleSubmit` calls `.trim()` on it (src/components/organisms/FarmForm.jsx:80), which throws | any loaded farm whose weather lookup succeeded, opened for editing and saved untouched | the summary field starts from the summary text, so the farm can be saved | not executed | FarmForm.ReportSummaryBreaksEdit | FarmForm.EditRoundTrip |
