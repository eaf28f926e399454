/**
 Scheduled skills as cron jobs (apps/openalpacad/src/scheduled_skills.rs) in the scheduler's job table
 (crates/openalpaca_wake/src/scheduler/mod.rs): kept up one skill at a time, they are what a full re-sync makes.
 */
module CronJobs {
  import opened Wrappers

  const SKILL_JOB_PREFIX := "skill:"
  const SKILL_JOB_TAG := "scheduled-skill"

  function SkillJobId(skill: string): string {
    SKILL_JOB_PREFIX + skill
  }

  function ParseSkillJobId(job: string): Option<string> {
    var n := |SKILL_JOB_PREFIX|;
    if n <= |job| && job[..n] == SKILL_JOB_PREFIX then Some(job[n..]) else None
  }

  /** A job id is a skill's exactly when it parses as that skill. */
  lemma JobIdOfSkill(job: string, skill: string)
    ensures ParseSkillJobId(job) == Some(skill) <==> job == SkillJobId(skill)
  {
    var n := |SKILL_JOB_PREFIX|;
    if job == SkillJobId(skill) {
      assert job[..n] == SKILL_JOB_PREFIX && job[n..] == skill;
    }
    if ParseSkillJobId(job) == Some(skill) {
      assert job == job[..n] + job[n..];
    }
  }

  predicate IsSkillJob(job: string) {
    ParseSkillJobId(job).Some?
  }

  datatype Task = Task(id: string, cron: string, tag: string)

  /** What of a skill's frontmatter matters here. */
  datatype Skill = Skill(cron: Option<string>)

  type Jobs = map<string, Task>
  type Catalog = map<string, Skill>
  type Accepts = string -> bool

  /** The skill is in the catalog, and has an expression the scheduler accepts. */
  predicate Wanted(catalog: Catalog, skill: string, accepts: Accepts) {
    skill in catalog && catalog[skill].cron.Some? && accepts(catalog[skill].cron.value)
  }

  function WantedOf(catalog: Catalog, skills: set<string>, accepts: Accepts): set<string> {
    set s | s in skills && Wanted(catalog, s, accepts)
  }

  function TaskOf(catalog: Catalog, skill: string): Task
    requires skill in catalog && catalog[skill].cron.Some?
  {
    Task(SkillJobId(skill), catalog[skill].cron.value, SKILL_JOB_TAG)
  }

  // ---------------------------------------------------------------- what the jobs should be

  function At(jobs: Jobs, id: string): Option<Task> {
    if id in jobs then Some(jobs[id]) else None
  }

  /** What a table with exactly these skills' jobs has under an id: under no skill's, what `others` has. */
  function Due(others: Jobs, catalog: Catalog, skills: set<string>, accepts: Accepts, id: string): Option<Task> {
    match ParseSkillJobId(id)
    case None => At(others, id)
    case Some(skill) => if skill in skills && Wanted(catalog, skill, accepts) then Some(TaskOf(catalog, skill)) else None
  }

  ghost predicate Holds(jobs: Jobs, others: Jobs, catalog: Catalog, skills: set<string>, accepts: Accepts) {
    forall id :: At(jobs, id) == Due(others, catalog, skills, accepts, id)
  }

  /** A full re-sync: every skill of the catalog while enabled, none while not. */
  ghost predicate Synced(jobs: Jobs, others: Jobs, catalog: Catalog, enabled: bool, accepts: Accepts) {
    Holds(jobs, others, catalog, if enabled then catalog.Keys else {}, accepts)
  }

  /** There is one such table. */
  lemma OneTable(a: Jobs, b: Jobs)
    requires forall id :: At(a, id) == At(b, id)
    ensures a == b
  {
    forall id ensures id in a <==> id in b {
      assert At(a, id) == At(b, id);
    }
    forall id | id in a ensures a[id] == b[id] {
      assert At(a, id) == At(b, id);
    }
  }

  // ---------------------------------------------------------------- the order of ids

  /** Strings in the order of their characters. */
  predicate Before(a: string, b: string) {
    b != "" && (a == "" || a[0] < b[0] || (a[0] == b[0] && Before(a[1..], b[1..])))
  }

  lemma {:induction false} BeforeIsAnOrder(a: string, b: string, c: string)
    ensures !Before(a, a) && (a == b || Before(a, b) || Before(b, a))
    ensures Before(a, b) && Before(b, c) ==> Before(a, c)
  {
    if a != "" && b != "" {
      assert a == [a[0]] + a[1..] && b == [b[0]] + b[1..];
      BeforeIsAnOrder(a[1..], b[1..], if c == "" then "" else c[1..]);
    } else if a != "" {
      BeforeIsAnOrder(a[1..], "", "");
    }
  }

  ghost predicate InOrder(ids: seq<string>) {
    forall j, k | 0 <= j < k < |ids| :: Before(ids[j], ids[k])
  }

  lemma NextInOrder(ids: seq<string>, id: string)
    requires InOrder(ids) && forall i | i in ids :: Before(i, id)
    ensures InOrder(ids + [id])
  {
  }

  predicate IsFirst(id: string, ids: set<string>) {
    forall other | other in ids && other != id :: Before(id, other)
  }

  lemma {:induction false} HasFirst(ids: set<string>)
    requires ids != {}
    ensures exists id :: id in ids && IsFirst(id, ids)
  {
    var x :| x in ids;
    var rest := ids - {x};
    if rest == {} {
      forall other | other in ids ensures other == x { assert other == x || other in rest; }
      assert IsFirst(x, ids);
    } else {
      HasFirst(rest);
      var y :| y in rest && IsFirst(y, rest);
      BeforeIsAnOrder(x, y, y);
      var first := if Before(x, y) then x else y;
      forall other | other in ids && other != first ensures Before(first, other) {
        assert other == x || other in rest;
        if other != y { BeforeIsAnOrder(x, y, other); }
      }
      assert first in ids && IsFirst(first, ids);
    }
  }

  // ---------------------------------------------------------------- the scheduler

  class Scheduler {
    var jobs: Jobs
    const accepts: Accepts

    constructor (accepts: Accepts)
      ensures jobs == map[] && this.accepts == accepts
    {
      jobs := map[];
      this.accepts := accepts;
    }

    /** A bad expression is refused, and so is an id that is taken. */
    method ScheduleCron(task: Task) returns (added: bool)
      modifies this
      ensures added == (accepts(task.cron) && task.id !in old(jobs))
      ensures jobs == if added then old(jobs)[task.id := task] else old(jobs)
    {
      if !accepts(task.cron) {
        return false;
      }
      if task.id in jobs {
        return false;
      }
      jobs := jobs[task.id := task];
      return true;
    }

    method RemoveJob(id: string) returns (removed: bool)
      modifies this
      ensures removed == (id in old(jobs)) && jobs == old(jobs) - {id}
    {
      if id !in jobs {
        return false;
      }
      jobs := jobs - {id};
      return true;
    }

    /** Each job once, in the order of their ids. */
    method ListJobs() returns (ids: seq<string>)
      ensures forall id :: id in ids <==> id in jobs
      ensures InOrder(ids)
    {
      ids := [];
      var rest := jobs.Keys;
      while rest != {}
        invariant rest <= jobs.Keys && forall id :: id in ids <==> id in jobs && id !in rest
        invariant InOrder(ids) && forall id, other | id in ids && other in rest :: Before(id, other)
      {
        HasFirst(rest);
        var first :| first in rest && IsFirst(first, rest);
        NextInOrder(ids, first);
        ids := ids + [first];
        rest := rest - {first};
      }
    }

    /** `register_skill`: whether a job was added. */
    method RegisterSkill(skill: string, frontmatter: Skill) returns (added: bool)
      modifies this
      ensures added == (frontmatter.cron.Some? && accepts(frontmatter.cron.value) && SkillJobId(skill) !in old(jobs))
      ensures jobs == if added then old(jobs)[SkillJobId(skill) := Task(SkillJobId(skill), frontmatter.cron.value, SKILL_JOB_TAG)]
                      else old(jobs)
    {
      if frontmatter.cron.None? {
        return false;
      }
      added := ScheduleCron(Task(SkillJobId(skill), frontmatter.cron.value, SKILL_JOB_TAG));
    }

    /** The removal half of a re-sync. */
    method RemoveSkillJobs()
      modifies this
      ensures Holds(jobs, old(jobs), map[], {}, accepts)
    {
      var list := ListJobs();
      for k := 0 to |list|
        invariant forall id :: id in jobs <==> id in old(jobs) && !(id in list[..k] && IsSkillJob(id))
        invariant forall id | id in jobs :: jobs[id] == old(jobs)[id]
      {
        if IsSkillJob(list[k]) {
          var _ := RemoveJob(list[k]);
        }
        assert list[..k + 1] == list[..k] + [list[k]];
      }
      assert list[..|list|] == list;
    }

    /** The registering half: one job for each skill that wants one. */
    method RegisterAll(catalog: Catalog, ghost others: Jobs) returns (count: nat)
      requires Holds(jobs, others, catalog, {}, accepts)
      modifies this
      ensures Holds(jobs, others, catalog, catalog.Keys, accepts)
      ensures count == |WantedOf(catalog, catalog.Keys, accepts)|
    {
      count := 0;
      var rest := catalog.Keys;
      ghost var taken: set<string> := {};
      while rest != {}
        invariant rest !! taken && rest + taken == catalog.Keys
        invariant Holds(jobs, others, catalog, taken, accepts)
        invariant count == |WantedOf(catalog, taken, accepts)|
      {
        var skill :| skill in rest;
        OneMoreSkill(jobs, others, catalog, taken, skill, accepts);
        OneMoreWanted(catalog, taken, skill, accepts);
        var added := RegisterSkill(skill, catalog[skill]);
        if added {
          count := count + 1;
        }
        rest, taken := rest - {skill}, taken + {skill};
      }
      assert taken == catalog.Keys;
    }

    /** `sync_all`. */
    method SyncAll(catalog: Catalog, enabled: bool) returns (count: nat)
      modifies this
      ensures Synced(jobs, old(jobs), catalog, enabled, accepts)
      ensures count == if enabled then |WantedOf(catalog, catalog.Keys, accepts)| else 0
    {
      RemoveSkillJobs();
      NoneDue(old(jobs), catalog, accepts);
      if !enabled {
        return 0;
      }
      count := RegisterAll(catalog, old(jobs));
    }

    /** `resync_skill`. */
    method ResyncSkill(catalog: Catalog, skill: string, enabled: bool)
      modifies this
      ensures jobs == Resynced(old(jobs), catalog, skill, enabled, accepts)
    {
      var _ := RemoveJob(SkillJobId(skill));
      if !enabled {
        return;
      }
      if skill in catalog {
        var _ := RegisterSkill(skill, catalog[skill]);
      }
    }
  }

  /** The table after one skill's job is dropped and made again from the catalog. */
  function Resynced(jobs: Jobs, catalog: Catalog, skill: string, enabled: bool, accepts: Accepts): Jobs {
    var less := jobs - {SkillJobId(skill)};
    if enabled && Wanted(catalog, skill, accepts) then less[SkillJobId(skill) := TaskOf(catalog, skill)] else less
  }

  lemma NoneDue(others: Jobs, catalog: Catalog, accepts: Accepts)
    ensures forall id :: Due(others, catalog, {}, accepts, id) == Due(others, map[], {}, accepts, id)
  {
  }

  lemma OneMoreWanted(catalog: Catalog, taken: set<string>, skill: string, accepts: Accepts)
    requires skill !in taken
    ensures |WantedOf(catalog, taken + {skill}, accepts)|
         == |WantedOf(catalog, taken, accepts)| + if Wanted(catalog, skill, accepts) then 1 else 0
  {
    var now, next := WantedOf(catalog, taken, accepts), WantedOf(catalog, taken + {skill}, accepts);
    assert next == if Wanted(catalog, skill, accepts) then now + {skill} else now;
  }

  lemma OneMoreSkill(jobs: Jobs, others: Jobs, catalog: Catalog, skills: set<string>, skill: string, accepts: Accepts)
    requires Holds(jobs, others, catalog, skills, accepts) && skill !in skills
    ensures SkillJobId(skill) !in jobs
    ensures Holds(if Wanted(catalog, skill, accepts) then jobs[SkillJobId(skill) := TaskOf(catalog, skill)] else jobs,
                  others, catalog, skills + {skill}, accepts)
  {
    var job := SkillJobId(skill);
    var more := if Wanted(catalog, skill, accepts) then jobs[job := TaskOf(catalog, skill)] else jobs;
    JobIdOfSkill(job, skill);
    assert At(jobs, job) == Due(others, catalog, skills, accepts, job);
    forall id ensures At(more, id) == Due(others, catalog, skills + {skill}, accepts, id) {
      JobIdOfSkill(id, skill);
      assert At(jobs, id) == Due(others, catalog, skills, accepts, id);
    }
  }

  // ---------------------------------------------------------------- over a run

  /** What happens to the daemon: a skill is edited, added or removed and re-synced; the kill switch is set and
      everything re-synced; somebody else's job comes or goes. */
  datatype Event =
    | Edit(skill: string, now: Option<Skill>)
    | Switch(enabled: bool)
    | Other(id: string, task: Option<Task>)

  datatype World = World(jobs: Jobs, catalog: Catalog, enabled: bool)

  function Set<V>(m: map<string, V>, key: string, value: Option<V>): map<string, V> {
    if value.Some? then m[key := value.value] else m - {key}
  }

  /** One event; a full re-sync leaves the one table that it can. */
  ghost predicate Step(w: World, e: Event, w': World, accepts: Accepts) {
    match e
    case Edit(skill, now) =>
      var catalog := Set(w.catalog, skill, now);
      w' == World(Resynced(w.jobs, catalog, skill, w.enabled, accepts), catalog, w.enabled)
    case Switch(enabled) =>
      w'.catalog == w.catalog && w'.enabled == enabled && Synced(w'.jobs, w.jobs, w.catalog, enabled, accepts)
    case Other(id, task) =>
      !IsSkillJob(id) && w' == w.(jobs := Set(w.jobs, id, task))
  }

  /** Dropping and remaking the edited skill's job is enough. */
  lemma ResyncKeepsSync(jobs: Jobs, others: Jobs, catalog: Catalog, enabled: bool, accepts: Accepts,
                        skill: string, now: Option<Skill>)
    requires Synced(jobs, others, catalog, enabled, accepts)
    ensures Synced(Resynced(jobs, Set(catalog, skill, now), skill, enabled, accepts), others,
                   Set(catalog, skill, now), enabled, accepts)
  {
    var catalog', job := Set(catalog, skill, now), SkillJobId(skill);
    var jobs' := Resynced(jobs, catalog', skill, enabled, accepts);
    var skills, skills' := if enabled then catalog.Keys else {}, if enabled then catalog'.Keys else {};
    JobIdOfSkill(job, skill);
    forall id ensures At(jobs', id) == Due(others, catalog', skills', accepts, id) {
      JobIdOfSkill(id, skill);
      assert At(jobs, id) == Due(others, catalog, skills, accepts, id);
    }
  }

  /** Since the start, `others` took every change to the jobs that are no skill's. */
  function OthersAfter(others: Jobs, e: Event): Jobs {
    if e.Other? && !IsSkillJob(e.id) then Set(others, e.id, e.task) else others
  }

  ghost predicate InSync(w: World, others: Jobs, accepts: Accepts) {
    Synced(w.jobs, others, w.catalog, w.enabled, accepts)
  }

  lemma StepKeepsSync(w: World, e: Event, w': World, others: Jobs, accepts: Accepts)
    requires InSync(w, others, accepts) && Step(w, e, w', accepts)
    ensures InSync(w', OthersAfter(others, e), accepts)
  {
    match e
    case Edit(skill, now) =>
      ResyncKeepsSync(w.jobs, others, w.catalog, w.enabled, accepts, skill, now);
    case Switch(enabled) =>
      SwitchKeepsSync(w.jobs, w'.jobs, others, w.catalog, w.enabled, enabled, accepts);
    case Other(id, task) =>
      OtherKeepsSync(w.jobs, others, w.catalog, w.enabled, accepts, id, task);
  }

  lemma SwitchKeepsSync(jobs: Jobs, jobs': Jobs, others: Jobs, catalog: Catalog, was: bool, enabled: bool, accepts: Accepts)
    requires Synced(jobs, others, catalog, was, accepts) && Synced(jobs', jobs, catalog, enabled, accepts)
    ensures Synced(jobs', others, catalog, enabled, accepts)
  {
    var skills, skills' := if was then catalog.Keys else {}, if enabled then catalog.Keys else {};
    forall id ensures At(jobs', id) == Due(others, catalog, skills', accepts, id) {
      assert At(jobs', id) == Due(jobs, catalog, skills', accepts, id);
      assert At(jobs, id) == Due(others, catalog, skills, accepts, id);
    }
  }

  lemma OtherKeepsSync(jobs: Jobs, others: Jobs, catalog: Catalog, enabled: bool, accepts: Accepts,
                       id: string, task: Option<Task>)
    requires Synced(jobs, others, catalog, enabled, accepts) && !IsSkillJob(id)
    ensures Synced(Set(jobs, id, task), Set(others, id, task), catalog, enabled, accepts)
  {
    var skills := if enabled then catalog.Keys else {};
    forall k ensures At(Set(jobs, id, task), k) == Due(Set(others, id, task), catalog, skills, accepts, k) {
      assert At(jobs, k) == Due(others, catalog, skills, accepts, k);
    }
  }

  ghost predicate StepAt(ws: seq<World>, es: seq<Event>, accepts: Accepts, i: nat)
    requires |ws| == |es| + 1
  {
    i < |es| && Step(ws[i], es[i], ws[i + 1], accepts)
  }

  ghost predicate IsRun(ws: seq<World>, es: seq<Event>, accepts: Accepts) {
    |ws| == |es| + 1 && forall i: nat | i < |es| :: StepAt(ws, es, accepts, i)
  }

  function OthersOver(others: Jobs, es: seq<Event>): Jobs {
    if es == [] then others else OthersAfter(OthersOver(others, es[..|es| - 1]), es[|es| - 1])
  }

  lemma NextInSync(ws: seq<World>, es: seq<Event>, accepts: Accepts, k: nat, others: Jobs)
    requires |ws| == |es| + 1 && StepAt(ws, es, accepts, k) && InSync(ws[k], others, accepts)
    ensures InSync(ws[k + 1], OthersAfter(others, es[k]), accepts)
  {
    StepKeepsSync(ws[k], es[k], ws[k + 1], others, accepts);
  }

  /** Over any run from a full re-sync, the jobs are exactly: one for each catalog skill with an accepted expression
      while enabled, none while not, and every other job as its owners left it. */
  lemma {:induction false} AlwaysInSync(ws: seq<World>, es: seq<Event>, accepts: Accepts, others: Jobs, k: nat)
    requires IsRun(ws, es, accepts) && InSync(ws[0], others, accepts) && k < |ws|
    ensures InSync(ws[k], OthersOver(others, es[..k]), accepts)
    decreases k
  {
    if k > 0 {
      AlwaysInSync(ws, es, accepts, others, k - 1);
      assert StepAt(ws, es, accepts, k - 1);
      assert es[..k][..k - 1] == es[..k - 1];
      NextInSync(ws, es, accepts, k - 1, OthersOver(others, es[..k - 1]));
    }
  }

  /** So a full re-sync at any moment of it would change nothing. */
  lemma ResyncAllChangesNothing(ws: seq<World>, es: seq<Event>, accepts: Accepts, others: Jobs, k: nat, jobs: Jobs)
    requires IsRun(ws, es, accepts) && InSync(ws[0], others, accepts) && k < |ws|
    requires Synced(jobs, ws[k].jobs, ws[k].catalog, ws[k].enabled, accepts)
    ensures jobs == ws[k].jobs
  {
    AlwaysInSync(ws, es, accepts, others, k);
    SameTable(jobs, ws[k].jobs, OthersOver(others, es[..k]), ws[k].catalog, ws[k].enabled, accepts);
  }

  lemma SameTable(jobs: Jobs, now: Jobs, others: Jobs, catalog: Catalog, enabled: bool, accepts: Accepts)
    requires Synced(now, others, catalog, enabled, accepts) && Synced(jobs, now, catalog, enabled, accepts)
    ensures jobs == now
  {
    SwitchKeepsSync(now, jobs, others, catalog, enabled, enabled, accepts);
    var skills := if enabled then catalog.Keys else {};
    forall id ensures At(jobs, id) == At(now, id) {
      assert At(now, id) == Due(others, catalog, skills, accepts, id);
      assert At(jobs, id) == Due(others, catalog, skills, accepts, id);
    }
    OneTable(jobs, now);
  }
}
