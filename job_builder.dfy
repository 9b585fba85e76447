/**
 * The job builder: turns a job given as a bare name, a bare function or an
 * object into one normalized descriptor, filling in the scheduler's defaults.
 */
module JobBuilder {
  import opened Wrappers
  import opened Jobs

  /** The characters a blank string may consist of. */
  predicate IsSpace(c: char) {
    c == ' ' || c == '\t' || c == '\n' || c == '\r' || c == '\U{B}' || c == '\U{C}'
  }

  /** A string is blank when it is empty or holds only whitespace. */
  predicate Blank(s: string) {
    forall i :: 0 <= i < |s| ==> IsSpace(s[i])
  }

  predicate EndsWith(s: string, suffix: string) {
    |suffix| <= |s| && s[|s| - |suffix|..] == suffix
  }

  /** Whether `name` already ends in one of the accepted extensions (which carry their dot, as in ".js"). */
  function HasAcceptedExtension(name: string, extensions: seq<string>): (r: bool)
    ensures r <==> exists ext :: ext in extensions && EndsWith(name, ext)
  {
    if extensions == [] then false
    else EndsWith(name, extensions[0]) || HasAcceptedExtension(name, extensions[1..])
  }

  /**
   * The file a job name stands for: the name itself when it already carries an
   * accepted extension, otherwise the name with the default extension appended.
   */
  function ScriptFileName(name: string, config: Config): (file: string)
    ensures name <= file
    ensures file == name <==> HasAcceptedExtension(name, config.acceptedExtensions)
    ensures file != name ==> file[|name|..] == "." + config.defaultExtension
    ensures "." + config.defaultExtension in config.acceptedExtensions ==>
              HasAcceptedExtension(file, config.acceptedExtensions)
  {
    if HasAcceptedExtension(name, config.acceptedExtensions) then name
    else
      var file := name + "." + config.defaultExtension;
      assert EndsWith(file, "." + config.defaultExtension);
      file
  }

  /** The path of the script a job name stands for, under the scheduler's root. */
  function ScriptPath(name: string, config: Config, env: Env): string {
    env.join(config.root, ScriptFileName(name, config))
  }

  /** A function turned into inline code: its source wrapped so that evaluating it calls the function. */
  function InlineSource(fn: Callable): (code: string)
    ensures |code| == |fn.source| + 4
    ensures code[1..|code| - 3] == fn.source
    ensures code[0] == '(' && code[|code| - 3..] == ")()"
  {
    "(" + fn.source + ")()"
  }

  /** The caller's worker options with `eval` switched on: every other key of the caller is kept. */
  function EvalWorker(caller: Option<WorkerOptions>): (w: WorkerOptions)
    ensures w.Keys == caller.GetOr(map[]).Keys + {"eval"}
    ensures w["eval"] == JBool(true)
    ensures forall k :: k in caller.GetOr(map[]) && k != "eval" ==> w[k] == caller.GetOr(map[])[k]
  {
    caller.GetOr(map[]) + map["eval" := JBool(true)]
  }

  /** Where a job's code comes from, with the worker options that go with it. */
  datatype Target = Target(path: string, worker: Option<WorkerOptions>)

  /** A job's `path` when it is a non-blank text path. */
  predicate HasExplicitPath(job: JobFields) {
    job.path.Some? && job.path.value.PathText? && !Blank(job.path.value.text)
  }

  /** A job's `name` when it is non-blank. */
  predicate HasUsableName(job: JobFields) {
    job.name.Some? && !Blank(job.name.value)
  }

  /**
   * The path resolution of an object job: a function path becomes inline code
   * run with `eval`; a non-blank text path is kept, and run with `eval` unless
   * it is an existing file; otherwise the path is derived from the name.
   */
  function ResolveTarget(job: JobFields, config: Config, env: Env): (r: Result<Target, BuildError>)
    ensures r.Err? <==> !(job.path.Some? && job.path.value.PathFn?) && !HasExplicitPath(job) && !HasUsableName(job)
    ensures r.Ok? && r.value.worker != job.worker ==> r.value.worker == Some(EvalWorker(job.worker))
  {
    if job.path.Some? && job.path.value.PathFn? then
      Ok(Target(InlineSource(job.path.value.fn), Some(EvalWorker(job.worker))))
    else if HasExplicitPath(job) then
      var p := job.path.value.text;
      if env.isFile(p) then Ok(Target(p, job.worker))
      else Ok(Target(p, Some(EvalWorker(job.worker))))
    else if HasUsableName(job) then Ok(Target(ScriptPath(job.name.value, config, env), job.worker))
    else Err(InvalidSpec)
  }

  /** The schedule a cron field stands for: parsed when it is text, as given when it is already a schedule. */
  function ScheduleOf(cron: Cron, hasSeconds: bool, env: Env): Schedule {
    match cron
    case CronText(expr) => env.parseCron(expr, hasSeconds)
    case CronSchedule(s) => s
  }

  /** Whether a cron expression is read with a seconds field: the job's own setting, else the scheduler's. */
  function CronHasSeconds(job: JobFields, config: Config): bool {
    job.hasSeconds.GetOr(config.hasSeconds)
  }

  /** An object job's timeout: its own; else the default, but only when it sets neither interval nor cron. */
  function ObjectTimeout(job: JobFields, config: Config): Option<nat> {
    if job.timeout.Some? then job.timeout
    else if job.interval.None? && job.cron.None? then Some(config.timeout)
    else None
  }

  /**
   * An object job's interval: the schedule of its cron when it has one; else
   * its own interval; else the default, but only when that is positive.
   */
  function ObjectInterval(job: JobFields, config: Config, env: Env): Option<Interval> {
    if job.cron.Some? then Some(Scheduled(ScheduleOf(job.cron.value, CronHasSeconds(job, config), env)))
    else if job.interval.Some? then Some(Millis(job.interval.value))
    else if config.interval > 0 then Some(Millis(config.interval))
    else None
  }

  /** The job's own timezone, else the scheduler's. */
  function ResolveTimezone(own: Option<string>, config: Config): Option<string> {
    if own.Some? then own else config.timezone
  }

  /** The execution mode: the scheduler-wide override, else the job's own, else "worker". */
  function ResolveRunAs(own: Option<string>, config: Config): string {
    if config.runJobsAs.Some? then config.runJobsAs.value else own.GetOr("worker")
  }

  /** A job that names neither a usable name nor a usable path. */
  predicate Unusable(spec: Spec) {
    match spec
    case Str(name) => Blank(name)
    case Fn(_) => false
    case Obj(job) =>
      && !(job.path.Some? && job.path.value.PathFn?)
      && !HasExplicitPath(job)
      && !HasUsableName(job)
  }

  /** Builds the normalized descriptor of `spec` under `config`; fails exactly when the job is unusable. */
  function Build(spec: Spec, config: Config, env: Env): (r: Result<Descriptor, BuildError>)
    ensures r.Err? <==> Unusable(spec)
  {
    match spec
    case Str(name) =>
      if Blank(name) then Err(InvalidSpec)
      else Ok(Descriptor(
        name := Some(name),
        path := ScriptPath(name, config, env),
        worker := None,
        timeout := Some(config.timeout),
        interval := Some(Millis(config.interval)),
        cron := None,
        hasSeconds := None,
        timezone := ResolveTimezone(None, config),
        runAs := ResolveRunAs(None, config)))
    case Fn(fn) =>
      Ok(Descriptor(
        name := Some(fn.name),
        path := InlineSource(fn),
        worker := Some(EvalWorker(None)),
        timeout := Some(config.timeout),
        interval := Some(Millis(config.interval)),
        cron := None,
        hasSeconds := None,
        timezone := ResolveTimezone(None, config),
        runAs := ResolveRunAs(None, config)))
    case Obj(job) =>
      match ResolveTarget(job, config, env)
      case Err(e) => Err(e)
      case Ok(target) =>
        Ok(Descriptor(
          name := job.name,
          path := target.path,
          worker := target.worker,
          timeout := ObjectTimeout(job, config),
          interval := ObjectInterval(job, config, env),
          cron := job.cron,
          hasSeconds := job.hasSeconds,
          timezone := ResolveTimezone(job.timezone, config),
          runAs := ResolveRunAs(job.runAs, config)))
  }
}
