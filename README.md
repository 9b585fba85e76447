# Bree job builder, modelled in Dafny

Bree is a job scheduler for Node.js. Its job builder, `jobBuilder(job, config)`, takes one job and the scheduler-wide configuration. The job may be given as a bare name, a bare function, or a partial object. The builder returns one normalized job descriptor. The descriptor has these keys:

- `name`: the job's name.
- `path`: the script to run, or the inline code to evaluate.
- `worker`: the worker options, including the `eval` flag.
- `timeout`, `interval`, `cron` and `hasSeconds`: how the job is scheduled.
- `timezone`: the timezone used for the schedule.
- `runAs`: whether the job runs as a worker thread or as a process.

The implementation file, `src/job-builder.js`, is not part of this model. The behaviour modelled here is the one fixed by its test table, `test/job-builder.js`. Each test there compares the builder's output with an exact descriptor by deep equality.

Files:

- `wrappers.dfy`: `Option` and `Result`.
- `jobs.dfy`: the data.
  - `Spec` is a bare name (`Str`), a bare function (`Fn`) or an object (`Obj` of `JobFields`).
  - `Config` holds the scheduler's options.
  - `Descriptor` is the output. An absent key is `None`, which is distinct from `Some(0)`.
  - `Env` holds the builder's collaborators: the file probe `isFile`, the path `join` and the cron parser `parseCron`.
- `job_builder.dfy`: `Build` and the rules it is made of. These cover path resolution, the `eval` worker merge and the defaulting of timeout, interval, timezone and `runAs`.
- `job_builder_properties.dfy`: the rules stated for all inputs.
- `job_builder_cases.dfy`: one lemma per test of the table, under the test's base configuration. The root and the collaborators are left as parameters.

The three collaborators are parameters, not implementations:

- the filesystem existence check;
- the platform's `path.join`;
- the cron parser, which produces an opaque `Schedule`.

A JavaScript function is a pair of its identifier and its source text, which stands in for `Function.prototype.toString`.

The test table pins three behaviours that a reading of "the job's value, else the configuration's" would get wrong:

- An object whose `path` is a function does not take its name from the function; it keeps the `name` it sets, if any (test/job-builder.js:81-92).
- The configuration's `hasSeconds` is not copied into the descriptor. Only a job's own `hasSeconds` is copied (test/job-builder.js:142-167).
- An object job that sets `interval` or `cron` gets no default `timeout`; a `timeout` it sets itself is kept (test/job-builder.js:126-153).

## Model

The helpers `JobBuilder.ScriptPath`, `ScheduleOf`, `CronHasSeconds`, `ObjectTimeout`, `ObjectInterval`, `ResolveTimezone` and `ResolveRunAs` carry no contract of their own. Each encodes one rule of the test table, and the lemma named here is its contract:

- `ScriptPath`: `NamedJobRunsScript` and `DefaultExtensionIsIdempotent`.
- `ScheduleOf` and `CronHasSeconds`: `CronOverridesInterval`.
- `ObjectTimeout`: `ObjectTimeoutRule`.
- `ObjectInterval`: `ObjectIntervalRule` and `CronOverridesInterval`.
- `ResolveTimezone`: `TimezoneRule`.
- `ResolveRunAs`: `RunAsRule`.

| member | source | states |
|---|---|---|
| `JobBuilder.Build` | test/job-builder.js:25-30 | The builder fails with `InvalidSpec` exactly when the job names neither a usable name nor a usable path: a blank bare name, or an object with no function path, no non-blank text path and no non-blank name. The test table never exercises this error path. |
| `JobBuilder.HasAcceptedExtension` | test/job-builder.js:46-58 | A name "has an extension" exactly when it ends in some member of `acceptedExtensions`. |
| `JobBuilder.ScriptFileName` | test/job-builder.js:32-58 | The file name starts with the job name. It equals the name exactly when the name already has an accepted extension. Otherwise it is the name followed by "." and the default extension. When that extension is itself accepted, the file name always has an accepted extension. |
| `JobBuilder.InlineSource` | test/job-builder.js:66-79 | Inline code is the function's source wrapped as `(` source `)()`. It is four characters longer than the source and contains the source verbatim. |
| `JobBuilder.EvalWorker` | test/job-builder.js:81-92 | The merged worker options hold `eval: true` and keep every other caller key with its value. Their keys are the caller's keys plus `eval`. |
| `JobBuilder.ResolveTarget` | test/job-builder.js:81-124 | Path resolution of an object job fails exactly when there is no function path, no non-blank text path and no non-blank name. When it changes the caller's worker options, it only adds `eval: true`. |
| `JobBuilderProperties.NamedJobRunsScript` | test/job-builder.js:32-58 | A non-blank bare name builds successfully. The descriptor keeps the name unchanged and has no worker options. Its path is `join(root, name)` when the name has an accepted extension, and `join(root, name + "." + defaultExtension)` otherwise. |
| `JobBuilderProperties.NamedObjectRunsScript` | test/job-builder.js:94-108 | An object with a non-blank name and a blank or missing path gets the same path as that bare name would. It keeps its name and its own worker options. |
| `JobBuilderProperties.DefaultExtensionIsIdempotent` | test/job-builder.js:32-58 | Suppose the default extension is accepted and a name lacks an accepted extension. Then the name and the name with the default extension appended resolve to the same script path. |
| `JobBuilderProperties.FunctionJobRunsInline` | test/job-builder.js:66-79 | A bare function gives a descriptor whose name is the function's identifier and whose path is `(` source `)()`. Its worker options are exactly `{eval: true}`. |
| `JobBuilderProperties.FunctionPathRunsInline` | test/job-builder.js:81-92 | An object whose path is a function gets that function's inline code as its path. Its worker options are the caller's plus `eval: true`. Its name is the object's own name, so it has none when the object sets none. |
| `JobBuilderProperties.ExplicitPathIsKept` | test/job-builder.js:110-124 | A non-blank text path is kept verbatim. If it is an existing file, the caller's worker options are left unchanged. Otherwise `eval: true` is merged into them. |
| `JobBuilderProperties.EvalOnlyForInlineCode` | test/job-builder.js:81-124 | An object job's worker options are either the caller's unchanged or the caller's plus `eval`. The latter happens only for a function path or a non-blank text path that is not an existing file. |
| `JobBuilderProperties.BareJobsTakeDefaults` | test/job-builder.js:32-79 | Bare names and bare functions always receive the configured timeout and interval, even when these are 0. They get no cron and no `hasSeconds`. |
| `JobBuilderProperties.ObjectTimeoutRule` | test/job-builder.js:94-153 | An object job keeps its own timeout. Without one, it receives the configured timeout exactly when it sets neither `interval` nor `cron`. |
| `JobBuilderProperties.ObjectIntervalRule` | test/job-builder.js:182-194 | Consider an object job without a cron. It keeps its own interval. Without one, it receives the configured interval exactly when that is positive. An explicit `interval: undefined` counts as unset. |
| `JobBuilderProperties.CronOverridesInterval` | test/job-builder.js:142-180 | A cron is kept verbatim and the interval becomes its schedule. Cron text is parsed; an existing schedule is used as is. The job's own `hasSeconds` is passed through, and no default timeout is added. |
| `JobBuilderProperties.ObjectCronPassesThrough` | test/job-builder.js:94-180 | For every object job that builds, the descriptor's `cron` and `hasSeconds` are exactly the job's own: absent when the job sets none, and never taken from the configuration. |
| `JobBuilderProperties.TimeoutDefaultFollowsConfig` | test/job-builder.js:25-44 | Take a job that receives the default timeout. Building it under a configured timeout `t` gives timeout `t`, and no other key of the descriptor changes. |
| `JobBuilderProperties.TimezoneRule` | test/job-builder.js:196-253 | An object's own timezone wins. Otherwise the configured timezone is used, for all three shapes of job. When neither is set, the key is absent. |
| `JobBuilderProperties.RunAsRule` | test/job-builder.js:255-292 | The configured `runJobsAs` wins over the job's own `runAs`, which wins over the default "worker". |
| `JobBuilderProperties.BareNameIsNamedObject` | test/job-builder.js:196-239 | A bare name and the object `{ name }` give the same descriptor except for the interval. The two descriptors are equal exactly when the configured interval is positive. |
| `JobBuilderCases.NameWithoutExtension` | test/job-builder.js:32-44 | `'basic'` builds `{name: 'basic', path: <root>/basic.js, timeout: 0, interval: 0, runAs: 'worker'}`. |
| `JobBuilderCases.NameWithExtension` | test/job-builder.js:46-58 | `'basic.js'` builds the same descriptor, named `'basic.js'`. |
| `JobBuilderCases.JobIsFunction` | test/job-builder.js:66-79 | The function `basic` builds its inline code with worker `{eval: true}`, name `'basic'`, timeout 0 and interval 0. |
| `JobBuilderCases.PathIsFunction` | test/job-builder.js:81-92 | `{path: basic, worker: {test: 1}}` builds inline code with worker `{eval: true, test: 1}` and timeout 0. It has no name and no interval. |
| `JobBuilderCases.BlankPathNameWithoutExtension` | test/job-builder.js:94-100 | `{name: 'basic', path: ''}` builds `{name: 'basic', path: <root>/basic.js, timeout: 0, runAs: 'worker'}`. |
| `JobBuilderCases.BlankPathNameWithExtension` | test/job-builder.js:102-108 | `{name: 'basic.js', path: ''}` builds the same descriptor, named `'basic.js'`. |
| `JobBuilderCases.PathIsFile` | test/job-builder.js:110-116 | An existing file path builds `{path, timeout: 0, runAs: 'worker'}`, with no worker options. |
| `JobBuilderCases.PathIsNotFile` | test/job-builder.js:118-124 | `{path: '*.js', worker: {test: 1}}` keeps the path and gets worker `{eval: true, test: 1}`. |
| `JobBuilderCases.TimeoutIsValue` | test/job-builder.js:126-132 | A job's own timeout 10 is kept, and no interval is added. |
| `JobBuilderCases.IntervalIsValue` | test/job-builder.js:134-140 | A job's own interval 10 is kept, and no timeout is added. |
| `JobBuilderCases.CronIsText` | test/job-builder.js:142-153 | Cron text is kept and the interval is its parsed schedule. No timeout is added. |
| `JobBuilderCases.CronIsTextWithHasSeconds` | test/job-builder.js:155-167 | The same as the previous case, and the job's `hasSeconds: false` is passed through. |
| `JobBuilderCases.CronIsSchedule` | test/job-builder.js:169-180 | A schedule given as `cron` is kept, and it also becomes the interval. |
| `JobBuilderCases.PositiveDefaultInterval` | test/job-builder.js:182-194 | `{name: 'basic', interval: undefined}` under the configured interval 10 gets interval 10 and timeout 0. |
| `JobBuilderCases.NameInheritsTimezone` | test/job-builder.js:196-209 | A bare name inherits the configured timezone `'local'`. |
| `JobBuilderCases.FunctionInheritsTimezone` | test/job-builder.js:211-225 | A bare function inherits the configured timezone `'local'`. |
| `JobBuilderCases.ObjectInheritsTimezone` | test/job-builder.js:227-239 | `{name: 'basic'}` inherits the configured timezone `'local'`. |
| `JobBuilderCases.ObjectKeepsTimezone` | test/job-builder.js:241-253 | An object's own timezone `'America/New_York'` wins over the configured `'local'`. |
| `JobBuilderCases.AppliesJobRunAs` | test/job-builder.js:255-270 | Without `runJobsAs`, the job's own `runAs` ('process' or 'worker') is applied, and 'worker' is used when it has none. |
| `JobBuilderCases.ConfigOverridesRunAs` | test/job-builder.js:272-292 | `runJobsAs` overrides the job's `runAs` in both directions. It also applies when the job has no `runAs`. |

## Left out

- The file probe, `path.join` and the cron parser are parameters (`Env`), not implementations. A real `stat`, platform path rules and cron grammar are not modelled.
- JavaScript functions are pairs of an identifier and a source text. Function identity and `toString` are not modelled.
- A path derived from a name is not checked against the filesystem. Only an explicit non-blank text path is probed.
- `EvalWorker` forces `eval: true` even when the caller's worker options set `eval` themselves. The tests never exercise this collision, so Bree's implementation's precedence there is not pinned.
- The cron parser receives the job's own `hasSeconds` when it is set, and otherwise the configured one. The tests use `false` in both places, so they do not show which one Bree's implementation passes.
- "Blank" means empty or made only of ASCII whitespace. Other Unicode whitespace that JavaScript's `trim` strips is not modelled.
- Timeouts and intervals are non-negative millisecond counts. Human-readable duration strings, `false`, and negative or non-finite numbers are not modelled.
- Worker option values are limited to scalars (booleans, integers, strings). Nested values such as `workerData: {…}` cannot be expressed. The builder never reads these values, so no behaviour is lost.
- `date` jobs, and fields of an object job that the builder does not recognize, are not modelled.
- Whether the builder mutates the object it is given is not modelled. `Build` is a function on values.
- The test harness and the worker or process launching that consumes the descriptor are outside this model.
