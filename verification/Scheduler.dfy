/**
 The bot scheduler: every few seconds it reads the task configuration and brings its jobs, the intervals it
 remembers and the jobs registered with the timer into step.  The timer is modelled by the jobs it holds by
 tag; whether it accepts a new job is a parameter.
 */
module Scheduler {
  import opened Common

  const MODULE_NAME := "ai_token_mall"
  const LIFECYCLE_TASK := "subscription_lifecycle"
  const VIP_TASK := "vip_level_sync"
  const COUPON_TASK := "coupon_expire"

  datatype Config = Config(moduleName: string, taskName: string, interval: real)

  datatype Job = Job(tag: string, nanoseconds: int)

  function JobName(c: Config): string {
    c.moduleName + "-" + c.taskName
  }

  /** Whether the scheduler has a handler for the task. */
  predicate Known(c: Config) {
    c.moduleName == MODULE_NAME && c.taskName in {LIFECYCLE_TASK, VIP_TASK, COUPON_TASK}
  }

  predicate HasHyphen(s: string) {
    exists i :: 0 <= i < |s| && s[i] == '-'
  }

  /** Splitting at its only hyphen, a job name gives back its module and task. */
  lemma NameSplits(m: string, t: string, m': string, t': string)
    requires m + "-" + t == m' + "-" + t'
    requires !HasHyphen(m) && !HasHyphen(t)
    ensures m == m' && t == t'
  {
    var name := m + "-" + t;
    assert name[|m'|] == (m' + "-" + t')[|m'|] == '-';
    assert forall i :: 0 <= i < |name| && i != |m| ==> name[i] == if i < |m| then m[i] else t[i - |m| - 1];
    assert |m'| == |m|;
    assert m == name[..|m|] && m' == (m' + "-" + t')[..|m'|];
    assert t == name[|m| + 1..] && t' == (m' + "-" + t')[|m'| + 1..];
  }

  /** No other configuration shares the job name of a known task. */
  lemma KnownNamesAreTheirOwn(c: Config, k: Config)
    requires Known(k) && JobName(c) == JobName(k)
    ensures c.moduleName == k.moduleName && c.taskName == k.taskName && Known(c)
  {
    NameSplits(k.moduleName, k.taskName, c.moduleName, c.taskName);
  }

  /** The interval in nanoseconds, at least a millisecond. */
  function Nanoseconds(interval: real): int {
    Max((interval * 1_000_000_000.0).Floor, 1_000_000)
  }

  /** The tasks with a handler, by name. */
  lemma KnownTasksAre(c: Config)
    ensures Known(c) <==>
            && c.moduleName == "ai_token_mall"
            && (c.taskName == "subscription_lifecycle" || c.taskName == "vip_level_sync" || c.taskName == "coupon_expire")
  {
  }

  /** A timer interval runs a job every so many seconds: the whole nanoseconds of it, but never under a millisecond. */
  predicate RunsEvery(nanoseconds: int, seconds: real) {
    var exact := seconds * 1_000_000_000.0;
    if exact < 1_000_000.0 then nanoseconds == 1_000_000
    else nanoseconds as real <= exact < nanoseconds as real + 1.0
  }

  lemma NanosecondsRun(seconds: real)
    ensures RunsEvery(Nanoseconds(seconds), seconds)
  {
  }

  /** The interval the last row of that name asks for. */
  function IntervalFor(configs: seq<Config>, name: string): Option<real> {
    if configs == [] then None
    else if JobName(configs[|configs| - 1]) == name then Some(configs[|configs| - 1].interval)
    else IntervalFor(configs[..|configs| - 1], name)
  }

  /** The jobs a configuration calls for, in full. */
  function Wanted(configs: seq<Config>): map<string, real> {
    if configs == [] then map[]
    else
      var c := configs[|configs| - 1];
      var before := Wanted(configs[..|configs| - 1]);
      if Known(c) then before[JobName(c) := c.interval] else before
  }

  function Names(configs: seq<Config>): set<string> {
    set c | c in configs :: JobName(c)
  }

  function KnownNames(configs: seq<Config>): set<string> {
    set c | c in configs && Known(c) :: JobName(c)
  }

  lemma {:induction false} WantedIs(configs: seq<Config>)
    ensures Wanted(configs).Keys == KnownNames(configs)
    ensures forall name :: name in Wanted(configs) ==> IntervalFor(configs, name) == Some(Wanted(configs)[name])
  {
    if configs != [] {
      var n := |configs| - 1;
      var c, before := configs[n], configs[..n];
      WantedIs(before);
      assert configs == before + [c];
      forall name | name in Wanted(configs)
        ensures IntervalFor(configs, name) == Some(Wanted(configs)[name])
      {
        if name == JobName(c) && !Known(c) {
          var k :| k in before && Known(k) && JobName(k) == name;
          KnownNamesAreTheirOwn(c, k);
        }
      }
    }
  }

  /** The jobs and the timer's registrations that go with the remembered intervals. */
  function JobsFor(configMap: map<string, real>): map<string, Job> {
    map name | name in configMap :: Job(name, Nanoseconds(configMap[name]))
  }

  function TagsFor(configMap: map<string, real>): map<string, int> {
    map name | name in configMap :: Nanoseconds(configMap[name])
  }

  /** The remembered intervals after one row: a job that has to be replaced and is refused is gone. */
  function AfterRow(configMap: map<string, real>, c: Config, accepts: bool): map<string, real> {
    var name := JobName(c);
    if !Known(c) || (name in configMap && configMap[name] == c.interval) then configMap
    else if accepts then configMap[name := c.interval]
    else configMap - {name}
  }

  function AfterRows(configMap: map<string, real>, configs: seq<Config>, accepts: seq<bool>): map<string, real>
    requires |accepts| == |configs|
  {
    if configs == [] then configMap
    else
      var n := |configs| - 1;
      AfterRow(AfterRows(configMap, configs[..n], accepts[..n]), configs[n], accepts[n])
  }

  lemma {:induction false} RowsBounded(configMap: map<string, real>, configs: seq<Config>, accepts: seq<bool>)
    requires |accepts| == |configs|
    ensures AfterRows(configMap, configs, accepts).Keys <= configMap.Keys + Wanted(configs).Keys
  {
    if configs != [] {
      var n := |configs| - 1;
      RowsBounded(configMap, configs[..n], accepts[..n]);
    }
  }

  lemma {:induction false} RowsAccepted(configMap: map<string, real>, configs: seq<Config>, accepts: seq<bool>)
    requires |accepts| == |configs| && forall i :: 0 <= i < |accepts| ==> accepts[i]
    ensures AfterRows(configMap, configs, accepts) == configMap + Wanted(configs)
  {
    if configs != [] {
      var n := |configs| - 1;
      RowsAccepted(configMap, configs[..n], accepts[..n]);
    } else {
      assert configMap + map[] == configMap;
    }
  }

  lemma {:induction false} RowsSettled(configMap: map<string, real>, configs: seq<Config>, accepts: seq<bool>)
    requires |accepts| == |configs|
    requires forall c :: c in configs && Known(c) ==> JobName(c) in configMap && configMap[JobName(c)] == c.interval
    ensures AfterRows(configMap, configs, accepts) == configMap
  {
    if configs != [] {
      var n := |configs| - 1;
      assert configs[n] in configs;
      RowsSettled(configMap, configs[..n], accepts[..n]);
    }
  }

  /** No two rows are for the same task. */
  ghost predicate UniqueRows(configs: seq<Config>) {
    forall i, j :: 0 <= i < j < |configs| ==>
      configs[i].moduleName != configs[j].moduleName || configs[i].taskName != configs[j].taskName
  }

  /** A row's job runs at its interval when the timer took it, and otherwise only if it did so before. */
  predicate RowOutcome(before: map<string, real>, after: map<string, real>, c: Config, accepts: bool) {
    var name := c.moduleName + "-" + c.taskName;
    if accepts || (name in before && before[name] == c.interval) then name in after && after[name] == c.interval
    else name !in after
  }

  lemma {:induction false} OtherRowsKeep(configMap: map<string, real>, configs: seq<Config>, accepts: seq<bool>, c: Config)
    requires |accepts| == |configs| && Known(c)
    requires forall i :: 0 <= i < |configs| ==> configs[i].moduleName != c.moduleName || configs[i].taskName != c.taskName
    ensures var r := AfterRows(configMap, configs, accepts);
            && (JobName(c) in r <==> JobName(c) in configMap)
            && (JobName(c) in r ==> r[JobName(c)] == configMap[JobName(c)])
  {
    if configs != [] {
      var n := |configs| - 1;
      OtherRowsKeep(configMap, configs[..n], accepts[..n], c);
      if JobName(configs[n]) == JobName(c) {
        KnownNamesAreTheirOwn(configs[n], c);
      }
    }
  }

  lemma {:induction false} RowsEndAs(configMap: map<string, real>, configs: seq<Config>, accepts: seq<bool>, i: nat)
    requires |accepts| == |configs| && UniqueRows(configs) && i < |configs| && Known(configs[i])
    ensures RowOutcome(configMap, AfterRows(configMap, configs, accepts), configs[i], accepts[i])
  {
    var n := |configs| - 1;
    if i == n {
      OtherRowsKeep(configMap, configs[..n], accepts[..n], configs[n]);
    } else {
      RowsEndAs(configMap, configs[..n], accepts[..n], i);
      if JobName(configs[n]) == JobName(configs[i]) {
        KnownNamesAreTheirOwn(configs[n], configs[i]);
      }
    }
  }

  class Timer {
    var jobs: map<string, int>

    constructor ()
      ensures jobs == map[]
    {
      jobs := map[];
    }

    /** A tag is never registered twice; a job the timer refuses is not kept. */
    method Register(job: Job, accepts: bool)
      requires job.tag !in jobs
      modifies this
      ensures jobs == if accepts then old(jobs)[job.tag := job.nanoseconds] else old(jobs)
    {
      if accepts {
        jobs := jobs[job.tag := job.nanoseconds];
      }
    }

    method RemoveByTag(tag: string)
      modifies this
      ensures jobs == old(jobs) - {tag}
    {
      jobs := jobs - {tag};
    }
  }

  class Scheduler {
    const timer: Timer
    var jobMap: map<string, Job>
    var configMap: map<string, real>
    var started: bool

    /** The three tables name the same jobs, and each runs at the interval remembered for it. */
    ghost predicate InStep()
      reads this, timer
    {
      jobMap == JobsFor(configMap) && timer.jobs == TagsFor(configMap)
    }

    /** What holds between rounds: also, only known tasks have jobs. */
    ghost predicate Ready()
      reads this, timer
    {
      InStep() && OnlyKnown(configMap)
    }

    constructor ()
      ensures Ready() && jobMap == map[] && !started && fresh(timer)
    {
      timer := new Timer();
      jobMap := map[];
      configMap := map[];
      started := false;
    }

    /** Drops the jobs that are no longer configured. */
    method RemoveAbsent(names: set<string>)
      requires InStep()
      modifies this`jobMap, this`configMap, timer
      ensures InStep()
      ensures configMap == map name | name in old(configMap) && name in names :: old(configMap)[name]
    {
      var pending := jobMap.Keys;
      while pending != {}
        invariant pending <= configMap.Keys <= old(configMap).Keys
        invariant InStep()
        invariant forall name :: name in configMap <==> name in old(configMap) && (name in pending || name in names)
        invariant forall name :: name in configMap ==> configMap[name] == old(configMap)[name]
        decreases pending
      {
        var name :| name in pending;
        pending := pending - {name};
        if name !in names {
          RemoveJob(name);
        }
      }
    }

    /** Creates or updates the job of one configuration row. */
    method Reconcile(c: Config, accepts: bool)
      requires InStep()
      modifies this`jobMap, this`configMap, timer
      ensures InStep()
      ensures configMap == AfterRow(old(configMap), c, accepts)
    {
      if !Known(c) {
        return;
      }
      var name := JobName(c);
      var needUpdate := name in jobMap && (name !in configMap || configMap[name] != c.interval);
      if !needUpdate && name in jobMap {
        return;
      }
      if needUpdate {
        RemoveJob(name);
      }
      CreateJob(name, c.interval, accepts);
    }

    method RemoveJob(name: string)
      requires InStep()
      modifies this`jobMap, this`configMap, timer
      ensures InStep() && configMap == old(configMap) - {name}
    {
      timer.RemoveByTag(name);
      jobMap := jobMap - {name};
      configMap := configMap - {name};
    }

    method CreateJob(name: string, interval: real, accepts: bool)
      requires InStep() && name !in configMap
      modifies this`jobMap, this`configMap, timer
      ensures InStep()
      ensures configMap == if accepts then old(configMap)[name := interval] else old(configMap)
    {
      var job := Job(name, Nanoseconds(interval));
      timer.Register(job, accepts);
      if !accepts {
        return;
      }
      jobMap := jobMap[name := job];
      configMap := configMap[name := interval];
    }

    method ReconcileAll(configs: seq<Config>, accepts: seq<bool>)
      requires InStep() && |accepts| == |configs|
      modifies this`jobMap, this`configMap, timer
      ensures InStep()
      ensures configMap == AfterRows(old(configMap), configs, accepts)
    {
      var i := 0;
      while i < |configs|
        invariant 0 <= i <= |configs|
        invariant InStep()
        invariant configMap == AfterRows(old(configMap), configs[..i], accepts[..i])
      {
        assert configs[..i + 1][..i] == configs[..i] && accepts[..i + 1][..i] == accepts[..i];
        Reconcile(configs[i], accepts[i]);
        i := i + 1;
      }
      assert configs[..i] == configs && accepts[..i] == accepts;
    }

    /** Brings the jobs into step with a configuration that was read. */
    method Apply(configs: seq<Config>, accepts: seq<bool>)
      requires Ready() && |accepts| == |configs|
      modifies this`jobMap, this`configMap, timer
      ensures Ready()
      ensures configMap.Keys <= Wanted(configs).Keys
      ensures (forall i :: 0 <= i < |accepts| ==> accepts[i]) ==> configMap == Wanted(configs)
      ensures Settled(old(configMap), configs) ==>
                configMap == old(configMap) && jobMap == old(jobMap) && timer.jobs == old(timer.jobs)
      ensures UniqueRows(configs) ==>
                forall i :: 0 <= i < |configs| && Known(configs[i]) ==> RowOutcome(old(configMap), configMap, configs[i], accepts[i])
    {
      ghost var was := configMap;
      RoundEndsAs(was, configs, accepts);
      NamedAreWanted(was, configs);
      RemoveAbsent(Names(configs));
      assert configMap.Keys <= Wanted(configs).Keys;
      RowsBounded(configMap, configs, accepts);
      if forall i :: 0 <= i < |accepts| ==> accepts[i] {
        RowsAccepted(configMap, configs, accepts);
        assert configMap + Wanted(configs) == Wanted(configs);
      }
      if Settled(was, configs) {
        SettledIsNamed(was, configs);
        assert configMap == was;
        RowsSettled(was, configs, accepts);
      }
      ReconcileAll(configs, accepts);
      OnlyKnownStays(configMap, configs);
    }

    /**
     One round: `read` is None when the configuration could not be read; `accepts` says for each row whether
     the timer takes its job.
     */
    method Handle(read: Option<seq<Config>>, accepts: seq<bool>)
      requires Ready()
      requires read.Some? ==> |accepts| == |read.value|
      modifies this, timer
      ensures Ready() && started
      ensures jobMap.Keys == configMap.Keys == timer.jobs.Keys
      ensures read.None? ==> configMap == old(configMap) && jobMap == old(jobMap) && timer.jobs == old(timer.jobs)
      ensures read.Some? ==> configMap.Keys <= Wanted(read.value).Keys
      ensures read.Some? && (forall i :: 0 <= i < |accepts| ==> accepts[i]) ==> configMap == Wanted(read.value)
      ensures read.Some? && Settled(old(configMap), read.value) ==>
                configMap == old(configMap) && jobMap == old(jobMap) && timer.jobs == old(timer.jobs)
      ensures read.Some? && UniqueRows(read.value) ==>
                forall i :: 0 <= i < |read.value| && Known(read.value[i]) ==>
                  RowOutcome(old(configMap), configMap, read.value[i], accepts[i])
      ensures forall name :: name in timer.jobs ==> RunsEvery(timer.jobs[name], configMap[name])
    {
      started := true;
      if read.Some? {
        Apply(read.value, accepts);
      }
      JobsRunOnTime();
    }

    /** Each job is registered to run at the interval remembered for it. */
    lemma JobsRunOnTime()
      requires Ready()
      ensures jobMap.Keys == configMap.Keys == timer.jobs.Keys
      ensures forall name :: name in timer.jobs ==> RunsEvery(timer.jobs[name], configMap[name])
    {
      forall name | name in timer.jobs ensures RunsEvery(timer.jobs[name], configMap[name]) {
        NanosecondsRun(configMap[name]);
      }
    }

    method Stop()
      requires Ready()
      modifies this, timer
      ensures Ready() && jobMap == map[] && configMap == map[] && timer.jobs == map[] && !started
    {
      var pending := jobMap.Keys;
      while pending != {}
        invariant pending <= jobMap.Keys == timer.jobs.Keys + (jobMap.Keys - pending)
        invariant timer.jobs.Keys == pending
        decreases pending
      {
        var name :| name in pending;
        pending := pending - {name};
        timer.RemoveByTag(name);
      }
      jobMap := map[];
      configMap := map[];
      started := false;
    }
  }

  /** Dropping what is no longer configured does not touch the configured rows. */
  lemma RoundEndsAs(configMap: map<string, real>, configs: seq<Config>, accepts: seq<bool>)
    requires |accepts| == |configs|
    ensures UniqueRows(configs) ==>
              var kept := map name | name in configMap && name in Names(configs) :: configMap[name];
              forall i :: 0 <= i < |configs| && Known(configs[i]) ==>
                RowOutcome(configMap, AfterRows(kept, configs, accepts), configs[i], accepts[i])
  {
    var kept := map name | name in configMap && name in Names(configs) :: configMap[name];
    if UniqueRows(configs) {
      forall i | 0 <= i < |configs| && Known(configs[i])
        ensures RowOutcome(configMap, AfterRows(kept, configs, accepts), configs[i], accepts[i])
      {
        RowsEndAs(kept, configs, accepts, i);
        assert configs[i] in configs;
        assert JobName(configs[i]) in Names(configs);
      }
    }
  }

  /** Every remembered job is one of a known task. */
  ghost predicate OnlyKnown(configMap: map<string, real>) {
    forall name :: name in configMap ==> exists c :: Known(c) && JobName(c) == name
  }

  /** Everything the configuration calls for is already running, at its interval, and its rows agree with each other. */
  ghost predicate Settled(configMap: map<string, real>, configs: seq<Config>) {
    && configMap == Wanted(configs)
    && forall c :: c in configs && Known(c) ==> JobName(c) in configMap && configMap[JobName(c)] == c.interval
  }

  /** Remembered jobs whose name is still configured are wanted: the row of that name has a known task. */
  lemma NamedAreWanted(configMap: map<string, real>, configs: seq<Config>)
    requires OnlyKnown(configMap)
    ensures configMap.Keys * Names(configs) <= Wanted(configs).Keys
  {
    WantedIs(configs);
    forall name | name in configMap && name in Names(configs)
      ensures name in KnownNames(configs)
    {
      var k :| Known(k) && JobName(k) == name;
      var c :| c in configs && JobName(c) == name;
      KnownNamesAreTheirOwn(c, k);
    }
  }

  lemma SettledIsNamed(configMap: map<string, real>, configs: seq<Config>)
    requires Settled(configMap, configs)
    ensures configMap.Keys <= Names(configs)
  {
    WantedIs(configs);
  }

  lemma OnlyKnownStays(configMap: map<string, real>, configs: seq<Config>)
    requires configMap.Keys <= Wanted(configs).Keys
    ensures OnlyKnown(configMap)
  {
    WantedIs(configs);
  }

  /** Rows are unique by module and task, so after a round in which every job is accepted the next one finds nothing to do. */
  lemma WantedIsSettled(configs: seq<Config>)
    requires forall c, k :: c in configs && k in configs && c.moduleName == k.moduleName && c.taskName == k.taskName ==> c == k
    ensures Settled(Wanted(configs), configs)
  {
    WantedIs(configs);
    forall c | c in configs && Known(c)
      ensures JobName(c) in Wanted(configs) && Wanted(configs)[JobName(c)] == c.interval
    {
      assert JobName(c) in KnownNames(configs);
      LastRowIsTheRow(configs, c);
    }
  }

  lemma {:induction false} LastRowIsTheRow(configs: seq<Config>, c: Config)
    requires c in configs && Known(c)
    requires forall k :: k in configs && k.moduleName == c.moduleName && k.taskName == c.taskName ==> k == c
    ensures IntervalFor(configs, JobName(c)) == Some(c.interval)
  {
    var n := |configs| - 1;
    var k := configs[n];
    if JobName(k) == JobName(c) {
      KnownNamesAreTheirOwn(k, c);
    } else {
      assert configs == configs[..n] + [k];
      LastRowIsTheRow(configs[..n], c);
    }
  }
}
