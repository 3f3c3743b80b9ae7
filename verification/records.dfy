/**
 * The view records the pages work with: what each service's `getAll`/`getById`/`create`/
 * `update` returns after translating the backend's `*_c` fields.
 */
module Records {
  import opened Wrappers
  import opened Dates

  /** What `weatherService.getWeatherSummary(location)` returns. */
  datatype WeatherSummary = WeatherSummary(
    temperature: int, condition: string, icon: string, location: string, summary: string)

  /** A farm's `weatherSummary` property: text as decoded from the backend, or (after the Farms
      page has loaded it) the summary object, or `null` when the lookup failed. */
  datatype SummaryField = Text(text: string) | Report(report: WeatherSummary) | Null

  datatype Farm = Farm(
    Id: nat, name: string, location: string, size: int, soilType: string,
    createdAt: Date, weatherSummary: SummaryField)

  datatype Crop = Crop(
    Id: nat, name: string, variety: string, plantingDate: Date, expectedHarvest: Date,
    area: int, status: string, farmId: string, farmName: string)

  /** `cropId`/`cropName` are `null` for a task not tied to a crop. */
  datatype Task = Task(
    Id: nat, title: string, description: string, dueDate: Date, priority: string,
    completed: bool, completedAt: Option<Date>, farmId: string, farmName: string,
    cropId: Option<string>, cropName: Option<string>)

  /** `kind` is the record's `type` property ("income" or "expense"). */
  datatype Transaction = Transaction(
    Id: nat, kind: string, category: string, amount: int, description: string,
    date: Date, farmId: string, farmName: string)

  datatype Rotation = Rotation(
    Id: nat, plannedDate: Date, previousCrop: string, status: string, notes: string,
    farmId: string, farmName: string, cropId: string, cropName: string, variety: string)
}
