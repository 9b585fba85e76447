/**
 * The values the job builder reads and produces: the three shapes a job may
 * be given in, the scheduler-wide configuration, the collaborators the builder
 * calls out to, and the normalized job descriptor.
 */
module Jobs {
  import opened Wrappers

  /** What the cron parser produces; the builder only passes it along. */
  type Schedule(==)

  /** A JavaScript function, reduced to what the builder reads of it: its identifier and its source text. */
  datatype Callable = Callable(name: string, source: string)

  /** A job's `path` field: a text path, or a function to run as inline code. */
  datatype JobPath = PathText(text: string) | PathFn(fn: Callable)

  /** A job's `cron` field: a cron expression, or a schedule parsed beforehand. */
  datatype Cron = CronText(expr: string) | CronSchedule(schedule: Schedule)

  /** A descriptor's `interval`: milliseconds, or the schedule that a cron field stands for. */
  datatype Interval = Millis(ms: nat) | Scheduled(schedule: Schedule)

  /** The scalar values a caller may put among the worker options. */
  datatype Json = JBool(b: bool) | JNum(n: int) | JStr(s: string)

  /** The `worker` options handed to the worker that runs the job. */
  type WorkerOptions = map<string, Json>

  /** A job given as an object: any subset of the recognized fields. */
  datatype JobFields = JobFields(
    name: Option<string>,
    path: Option<JobPath>,
    timeout: Option<nat>,
    interval: Option<nat>,
    cron: Option<Cron>,
    hasSeconds: Option<bool>,
    timezone: Option<string>,
    runAs: Option<string>,
    worker: Option<WorkerOptions>)

  /** The object job with no field set; `NoFields.(name := Some("basic"))` is `{ name: 'basic' }`. */
  const NoFields := JobFields(None, None, None, None, None, None, None, None, None)

  /** The three shapes a job may be given in: a bare name, a bare function, or an object. */
  datatype Spec = Str(text: string) | Fn(fn: Callable) | Obj(job: JobFields)

  /** The scheduler-wide options the builder consults. */
  datatype Config = Config(
    root: string,
    timeout: nat,
    interval: nat,
    hasSeconds: bool,
    defaultExtension: string,
    acceptedExtensions: seq<string>,
    timezone: Option<string>,
    runJobsAs: Option<string>)

  /**
   * The builder's collaborators: the file-system probe, the platform's path
   * join and the cron parser (expression, whether it has a seconds field).
   */
  datatype Env = Env(
    isFile: string -> bool,
    join: (string, string) -> string,
    parseCron: (string, bool) -> Schedule)

  /** The normalized job descriptor; an absent key is `None`, distinct from `Some(0)`. */
  datatype Descriptor = Descriptor(
    name: Option<string>,
    path: string,
    worker: Option<WorkerOptions>,
    timeout: Option<nat>,
    interval: Option<Interval>,
    cron: Option<Cron>,
    hasSeconds: Option<bool>,
    timezone: Option<string>,
    runAs: string)

  /** The one way a build fails: the job names neither a usable name nor a usable path. */
  datatype BuildError = InvalidSpec
}
