/**
 * The builder's behaviour on the concrete jobs of its test table, each under
 * the base configuration: jobs under `root`, timeout and interval 0, no
 * seconds field in cron expressions, default extension "js", accepted
 * extensions ".js" and ".mjs". `basic(src)` is a function named `basic` whose
 * source text is `src`; `BasicPath` is the script `basic.js` under the root.
 */
module JobBuilderCases {
  import opened Wrappers
  import opened Jobs
  import opened JobBuilder

  function BaseConfig(root: string): Config {
    Config(root, 0, 0, false, "js", [".js", ".mjs"], None, None)
  }

  function BasicPath(root: string, env: Env): string {
    env.join(root, "basic.js")
  }

  function Basic(src: string): Callable {
    Callable("basic", src)
  }

  /** The descriptor every test starts from: `basic` run from its script, defaults 0, run as a worker. */
  function BasicDescriptor(root: string, env: Env): Descriptor {
    Descriptor(Some("basic"), BasicPath(root, env), None, Some(0), Some(Millis(0)), None, None, None, "worker")
  }

  /** The object job `{ name: 'basic', path: <basic.js>, timeout: 0, interval: 0 }`. */
  function BaseJob(root: string, env: Env): JobFields {
    NoFields.(name := Some("basic"), path := Some(PathText(BasicPath(root, env))), timeout := Some(0), interval := Some(0))
  }

  lemma NameWithoutExtension(root: string, env: Env)
    ensures Build(Str("basic"), BaseConfig(root), env) == Ok(BasicDescriptor(root, env))
  {
    assert !EndsWith("basic", ".js") && !EndsWith("basic", ".mjs");
    assert "basic" + "." + "js" == "basic.js";
  }

  lemma NameWithExtension(root: string, env: Env)
    ensures Build(Str("basic.js"), BaseConfig(root), env)
         == Ok(BasicDescriptor(root, env).(name := Some("basic.js")))
  {
    assert !IsSpace("basic.js"[0]);
    assert EndsWith("basic.js", ".js");
  }

  lemma JobIsFunction(root: string, env: Env, src: string)
    ensures Build(Fn(Basic(src)), BaseConfig(root), env)
         == Ok(BasicDescriptor(root, env).(path := "(" + src + ")()", worker := Some(map["eval" := JBool(true)])))
  {
    assert map[] + map["eval" := JBool(true)] == map["eval" := JBool(true)];
  }

  lemma PathIsFunction(root: string, env: Env, src: string)
    ensures Build(Obj(NoFields.(path := Some(PathFn(Basic(src))), worker := Some(map["test" := JNum(1)]))), BaseConfig(root), env)
         == Ok(Descriptor(None, "(" + src + ")()", Some(map["eval" := JBool(true), "test" := JNum(1)]), Some(0), None, None, None, None, "worker"))
  {
    assert map["test" := JNum(1)] + map["eval" := JBool(true)] == map["eval" := JBool(true), "test" := JNum(1)];
  }

  lemma BlankPathNameWithoutExtension(root: string, env: Env)
    ensures Build(Obj(NoFields.(name := Some("basic"), path := Some(PathText("")))), BaseConfig(root), env)
         == Ok(BasicDescriptor(root, env).(interval := None))
  {
    assert !EndsWith("basic", ".js") && !EndsWith("basic", ".mjs");
    assert "basic" + "." + "js" == "basic.js";
  }

  lemma BlankPathNameWithExtension(root: string, env: Env)
    ensures Build(Obj(NoFields.(name := Some("basic.js"), path := Some(PathText("")))), BaseConfig(root), env)
         == Ok(BasicDescriptor(root, env).(name := Some("basic.js"), interval := None))
  {
    assert !IsSpace("basic.js"[0]);
    assert EndsWith("basic.js", ".js");
  }

  lemma PathIsFile(root: string, env: Env)
    requires env.isFile(BasicPath(root, env)) && !Blank(BasicPath(root, env))
    ensures Build(Obj(NoFields.(path := Some(PathText(BasicPath(root, env))))), BaseConfig(root), env)
         == Ok(BasicDescriptor(root, env).(name := None, interval := None))
  {
  }

  lemma PathIsNotFile(root: string, env: Env)
    requires !env.isFile("*.js")
    ensures Build(Obj(NoFields.(path := Some(PathText("*.js")), worker := Some(map["test" := JNum(1)]))), BaseConfig(root), env)
         == Ok(Descriptor(None, "*.js", Some(map["eval" := JBool(true), "test" := JNum(1)]), Some(0), None, None, None, None, "worker"))
  {
    assert !Blank("*.js") by { assert !IsSpace("*.js"[0]); }
    assert map["test" := JNum(1)] + map["eval" := JBool(true)] == map["eval" := JBool(true), "test" := JNum(1)];
  }

  lemma TimeoutIsValue(root: string, env: Env)
    requires env.isFile(BasicPath(root, env)) && !Blank(BasicPath(root, env))
    ensures Build(Obj(NoFields.(path := Some(PathText(BasicPath(root, env))), timeout := Some(10))), BaseConfig(root), env)
         == Ok(BasicDescriptor(root, env).(name := None, timeout := Some(10), interval := None))
  {
  }

  lemma IntervalIsValue(root: string, env: Env)
    requires env.isFile(BasicPath(root, env)) && !Blank(BasicPath(root, env))
    ensures Build(Obj(NoFields.(path := Some(PathText(BasicPath(root, env))), interval := Some(10))), BaseConfig(root), env)
         == Ok(BasicDescriptor(root, env).(name := None, timeout := None, interval := Some(Millis(10))))
  {
  }

  lemma CronIsText(root: string, env: Env)
    requires env.isFile(BasicPath(root, env)) && !Blank(BasicPath(root, env))
    ensures Build(Obj(NoFields.(path := Some(PathText(BasicPath(root, env))), cron := Some(CronText("* * * * *")))), BaseConfig(root), env)
         == Ok(BasicDescriptor(root, env).(name := None, timeout := None,
                 cron := Some(CronText("* * * * *")),
                 interval := Some(Scheduled(env.parseCron("* * * * *", false)))))
  {
  }

  lemma CronIsTextWithHasSeconds(root: string, env: Env)
    requires env.isFile(BasicPath(root, env)) && !Blank(BasicPath(root, env))
    ensures Build(Obj(NoFields.(path := Some(PathText(BasicPath(root, env))), cron := Some(CronText("* * * * *")), hasSeconds := Some(false))), BaseConfig(root), env)
         == Ok(BasicDescriptor(root, env).(name := None, timeout := None,
                 cron := Some(CronText("* * * * *")),
                 interval := Some(Scheduled(env.parseCron("* * * * *", false))),
                 hasSeconds := Some(false)))
  {
  }

  lemma CronIsSchedule(root: string, env: Env)
    requires env.isFile(BasicPath(root, env)) && !Blank(BasicPath(root, env))
    ensures var s := env.parseCron("* * * * *", false);
      Build(Obj(NoFields.(path := Some(PathText(BasicPath(root, env))), cron := Some(CronSchedule(s)))), BaseConfig(root), env)
         == Ok(BasicDescriptor(root, env).(name := None, timeout := None, cron := Some(CronSchedule(s)), interval := Some(Scheduled(s))))
  {
  }

  lemma PositiveDefaultInterval(root: string, env: Env)
    ensures Build(Obj(NoFields.(name := Some("basic"))), BaseConfig(root).(interval := 10), env)
         == Ok(BasicDescriptor(root, env).(interval := Some(Millis(10))))
  {
    assert !EndsWith("basic", ".js") && !EndsWith("basic", ".mjs");
    assert "basic" + "." + "js" == "basic.js";
  }

  lemma NameInheritsTimezone(root: string, env: Env)
    ensures Build(Str("basic"), BaseConfig(root).(timezone := Some("local")), env)
         == Ok(BasicDescriptor(root, env).(timezone := Some("local")))
  {
    assert !EndsWith("basic", ".js") && !EndsWith("basic", ".mjs");
    assert "basic" + "." + "js" == "basic.js";
  }

  lemma FunctionInheritsTimezone(root: string, env: Env, src: string)
    ensures Build(Fn(Basic(src)), BaseConfig(root).(timezone := Some("local")), env)
         == Ok(BasicDescriptor(root, env).(path := "(" + src + ")()", worker := Some(map["eval" := JBool(true)]), timezone := Some("local")))
  {
    assert map[] + map["eval" := JBool(true)] == map["eval" := JBool(true)];
  }

  lemma ObjectInheritsTimezone(root: string, env: Env)
    ensures Build(Obj(NoFields.(name := Some("basic"))), BaseConfig(root).(timezone := Some("local")), env)
         == Ok(BasicDescriptor(root, env).(interval := None, timezone := Some("local")))
  {
    assert !EndsWith("basic", ".js") && !EndsWith("basic", ".mjs");
    assert "basic" + "." + "js" == "basic.js";
  }

  lemma ObjectKeepsTimezone(root: string, env: Env)
    ensures Build(Obj(NoFields.(name := Some("basic"), timezone := Some("America/New_York"))), BaseConfig(root).(timezone := Some("local")), env)
         == Ok(BasicDescriptor(root, env).(interval := None, timezone := Some("America/New_York")))
  {
    assert !EndsWith("basic", ".js") && !EndsWith("basic", ".mjs");
    assert "basic" + "." + "js" == "basic.js";
  }

  /** The job's own `runAs` is applied, and "worker" without one. */
  lemma AppliesJobRunAs(root: string, env: Env)
    ensures var r := Build(Obj(BaseJob(root, env)), BaseConfig(root), env); r.Ok? && r.value.runAs == "worker"
    ensures var r := Build(Obj(BaseJob(root, env).(runAs := Some("process"))), BaseConfig(root), env); r.Ok? && r.value.runAs == "process"
    ensures var r := Build(Obj(BaseJob(root, env).(runAs := Some("worker"))), BaseConfig(root), env); r.Ok? && r.value.runAs == "worker"
  {
    assert !IsSpace("basic"[0]);
  }

  /** The scheduler's `runJobsAs` overrides the job's own `runAs`. */
  lemma ConfigOverridesRunAs(root: string, env: Env)
    ensures var r := Build(Obj(BaseJob(root, env).(runAs := Some("worker"))), BaseConfig(root).(runJobsAs := Some("process")), env); r.Ok? && r.value.runAs == "process"
    ensures var r := Build(Obj(BaseJob(root, env).(runAs := Some("process"))), BaseConfig(root).(runJobsAs := Some("worker")), env); r.Ok? && r.value.runAs == "worker"
    ensures var r := Build(Obj(BaseJob(root, env)), BaseConfig(root).(runJobsAs := Some("process")), env); r.Ok? && r.value.runAs == "process"
    ensures var r := Build(Obj(BaseJob(root, env)), BaseConfig(root), env); r.Ok? && r.value.runAs == "worker"
  {
    assert !IsSpace("basic"[0]);
  }
}
