/**
 * The rules the job builder follows, stated for all inputs: how a path is
 * resolved for each shape of job, when `eval` is switched on, how defaults,
 * cron, timezone and execution mode are settled, and when a build fails.
 */
module JobBuilderProperties {
  import opened Wrappers
  import opened Jobs
  import opened JobBuilder

  /**
   * A job given by its name alone runs the script of that name under the root:
   * the name as given when it carries an accepted extension, the name with the
   * default extension otherwise. The descriptor's name is the name unchanged.
   */
  lemma NamedJobRunsScript(name: string, config: Config, env: Env)
    requires !Blank(name)
    ensures var r := Build(Str(name), config, env);
      && r.Ok?
      && r.value.name == Some(name)
      && r.value.worker.None?
      && (HasAcceptedExtension(name, config.acceptedExtensions) ==>
            r.value.path == env.join(config.root, name))
      && (!HasAcceptedExtension(name, config.acceptedExtensions) ==>
            r.value.path == env.join(config.root, name + "." + config.defaultExtension))
  {
  }

  /** An object job with a usable name and a blank or missing path resolves its path as a bare name would. */
  lemma NamedObjectRunsScript(job: JobFields, config: Config, env: Env)
    requires HasUsableName(job)
    requires job.path.None? || (job.path.value.PathText? && Blank(job.path.value.text))
    ensures var r := Build(Obj(job), config, env);
      && r.Ok?
      && r.value.name == job.name
      && r.value.worker == job.worker
      && r.value.path == Build(Str(job.name.value), config, env).value.path
  {
  }

  /**
   * A name without an accepted extension and the same name with the default
   * extension appended name the same script, when that extension is accepted.
   */
  lemma DefaultExtensionIsIdempotent(name: string, config: Config, env: Env)
    requires "." + config.defaultExtension in config.acceptedExtensions
    requires !HasAcceptedExtension(name, config.acceptedExtensions)
    ensures ScriptPath(name, config, env) == ScriptPath(name + "." + config.defaultExtension, config, env)
  {
  }

  /**
   * A job given as a bare function runs its source as inline code: the name is
   * the function's identifier and the worker options are exactly `{eval: true}`.
   */
  lemma FunctionJobRunsInline(fn: Callable, config: Config, env: Env)
    ensures var r := Build(Fn(fn), config, env);
      && r.Ok?
      && r.value.name == Some(fn.name)
      && r.value.path == "(" + fn.source + ")()"
      && r.value.worker == Some(map["eval" := JBool(true)])
  {
    assert EvalWorker(None) == map["eval" := JBool(true)];
  }

  /**
   * An object job whose path is a function runs that function's source as
   * inline code, with `eval` added to the caller's worker options; the
   * function's identifier does not become the name.
   */
  lemma FunctionPathRunsInline(job: JobFields, fn: Callable, config: Config, env: Env)
    requires job.path == Some(PathFn(fn))
    ensures var r := Build(Obj(job), config, env);
      && r.Ok?
      && r.value.name == job.name
      && r.value.path == "(" + fn.source + ")()"
      && r.value.worker == Some(EvalWorker(job.worker))
  {
  }

  /**
   * A non-blank text path is kept verbatim. When it is an existing file the
   * caller's worker options are left as they are; otherwise the path is taken
   * as inline code and `eval` is added to them.
   */
  lemma ExplicitPathIsKept(job: JobFields, path: string, config: Config, env: Env)
    requires job.path == Some(PathText(path)) && !Blank(path)
    ensures var r := Build(Obj(job), config, env);
      && r.Ok?
      && r.value.name == job.name
      && r.value.path == path
      && (env.isFile(path) ==> r.value.worker == job.worker)
      && (!env.isFile(path) ==> r.value.worker == Some(EvalWorker(job.worker)))
  {
  }

  /**
   * Whenever the builder runs a job as inline code the worker options carry
   * `eval: true`; whenever it leaves the caller's worker options alone, the
   * job's code comes from a file: an existing path or one derived from the name.
   */
  lemma EvalOnlyForInlineCode(job: JobFields, config: Config, env: Env)
    requires Build(Obj(job), config, env).Ok?
    ensures var d := Build(Obj(job), config, env).value;
      && (d.worker == job.worker || d.worker == Some(EvalWorker(job.worker)))
      && (d.worker != job.worker ==>
            (job.path.Some? && job.path.value.PathFn?) || (HasExplicitPath(job) && !env.isFile(d.path)))
  {
  }

  /** Bare names and bare functions always receive the scheduler's timeout and interval, zero included. */
  lemma BareJobsTakeDefaults(spec: Spec, config: Config, env: Env)
    requires spec.Str? || spec.Fn?
    requires Build(spec, config, env).Ok?
    ensures var d := Build(spec, config, env).value;
      && d.timeout == Some(config.timeout)
      && d.interval == Some(Millis(config.interval))
      && d.cron.None?
      && d.hasSeconds.None?
  {
  }

  /**
   * An object job keeps its own timeout; without one it receives the
   * scheduler's timeout exactly when it sets neither an interval nor a cron.
   */
  lemma ObjectTimeoutRule(job: JobFields, config: Config, env: Env)
    requires Build(Obj(job), config, env).Ok?
    ensures var d := Build(Obj(job), config, env).value;
      && (job.timeout.Some? ==> d.timeout == job.timeout)
      && (job.timeout.None? && job.interval.None? && job.cron.None? ==> d.timeout == Some(config.timeout))
      && (job.timeout.None? && (job.interval.Some? || job.cron.Some?) ==> d.timeout.None?)
  {
  }

  /**
   * Without a cron, an object job keeps its own interval; without one it
   * receives the scheduler's interval exactly when that is positive.
   */
  lemma ObjectIntervalRule(job: JobFields, config: Config, env: Env)
    requires job.cron.None?
    requires Build(Obj(job), config, env).Ok?
    ensures var d := Build(Obj(job), config, env).value;
      && (job.interval.Some? ==> d.interval == Some(Millis(job.interval.value)))
      && (job.interval.None? ==> (d.interval.Some? <==> config.interval > 0))
      && (job.interval.None? && config.interval > 0 ==> d.interval == Some(Millis(config.interval)))
  {
  }

  /**
   * A cron field is kept verbatim and overrides any interval: text is parsed,
   * a schedule is used as it is. The job's own `hasSeconds` is passed through.
   */
  lemma CronOverridesInterval(job: JobFields, config: Config, env: Env)
    requires job.cron.Some?
    requires Build(Obj(job), config, env).Ok?
    ensures var d := Build(Obj(job), config, env).value;
      && d.cron == job.cron
      && d.hasSeconds == job.hasSeconds
      && d.timeout == job.timeout
      && (job.cron.value.CronSchedule? ==> d.interval == Some(Scheduled(job.cron.value.schedule)))
      && (job.cron.value.CronText? ==>
            d.interval == Some(Scheduled(env.parseCron(job.cron.value.expr, CronHasSeconds(job, config)))))
  {
  }

  /**
   * An object job's `cron` and `hasSeconds` are passed through as it gives
   * them: present exactly when the job sets them, and never filled in from
   * the scheduler's configuration.
   */
  lemma ObjectCronPassesThrough(job: JobFields, config: Config, env: Env)
    requires Build(Obj(job), config, env).Ok?
    ensures var d := Build(Obj(job), config, env).value;
      && d.cron == job.cron
      && d.hasSeconds == job.hasSeconds
  {
  }

  /** The timeout default follows the configured value: changing it changes exactly the defaulted timeouts. */
  lemma TimeoutDefaultFollowsConfig(spec: Spec, config: Config, env: Env, t: nat)
    requires Build(spec, config, env).Ok?
    requires spec.Obj? ==> spec.job.timeout.None? && spec.job.interval.None? && spec.job.cron.None?
    ensures Build(spec, config.(timeout := t), env).Ok?
    ensures Build(spec, config.(timeout := t), env).value.timeout == Some(t)
    ensures Build(spec, config.(timeout := t), env).value == Build(spec, config, env).value.(timeout := Some(t))
  {
  }

  /** The job's own timezone wins; otherwise the scheduler's, for every shape of job; otherwise none. */
  lemma TimezoneRule(spec: Spec, config: Config, env: Env)
    requires Build(spec, config, env).Ok?
    ensures var d := Build(spec, config, env).value;
      && (spec.Obj? && spec.job.timezone.Some? ==> d.timezone == spec.job.timezone)
      && (!(spec.Obj? && spec.job.timezone.Some?) ==> d.timezone == config.timezone)
  {
  }

  /**
   * The scheduler-wide `runJobsAs` wins over the job's own `runAs`, which
   * wins over the default "worker".
   */
  lemma RunAsRule(spec: Spec, config: Config, env: Env)
    requires Build(spec, config, env).Ok?
    ensures var d := Build(spec, config, env).value;
      && (config.runJobsAs.Some? ==> d.runAs == config.runJobsAs.value)
      && (config.runJobsAs.None? && spec.Obj? && spec.job.runAs.Some? ==> d.runAs == spec.job.runAs.value)
      && (config.runJobsAs.None? && !(spec.Obj? && spec.job.runAs.Some?) ==> d.runAs == "worker")
  {
  }

  /**
   * A bare name and the object holding only that name build the same
   * descriptor, except that the bare name always receives the default
   * interval while the object receives it only when it is positive.
   */
  lemma BareNameIsNamedObject(name: string, config: Config, env: Env)
    requires !Blank(name)
    ensures var s := Build(Str(name), config, env);
      var o := Build(Obj(NoFields.(name := Some(name))), config, env);
      && s.Ok? && o.Ok?
      && s.value.(interval := None) == o.value.(interval := None)
      && (s.value == o.value <==> config.interval > 0)
  {
  }
}
