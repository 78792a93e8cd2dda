// The records the labor and parts adapters return to the estimate pipeline.
module Adapters {
  import opened Wrappers

  /**
   * `LaborTimeResult`: a job's standard labor time. `category` and `difficulty` are optional
   * in the interface; every adapter modelled here fills them, so they are plain strings.
   */
  datatype LaborTimeResult = LaborTimeResult(
    jobDescription: string,
    laborHours: real,
    source: string,
    category: string,
    difficulty: string)

  /** `PartResult`: one part found for a job; a scraper may leave the price or brand out. */
  datatype PartResult = PartResult(
    partNumber: string,
    description: string,
    manufacturer: Option<string>,
    price: Option<real>,
    isOEM: bool,
    category: Option<string>)
}
