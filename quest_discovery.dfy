/** Quest discovery: which quests of the quests store a run works on, and the state each one
    starts from. */
module QuestDiscovery {
  import opened JsValues

  /** The task types the script supports. */
  datatype TaskType = WatchVideo | PlayOnDesktop | StreamOnDesktop | PlayActivity | WatchVideoOnMobile {

    /** The key of this task type in the host's task configuration and progress records. */
    function Name(): string {
      match this
      case WatchVideo => "WATCH_VIDEO"
      case PlayOnDesktop => "PLAY_ON_DESKTOP"
      case StreamOnDesktop => "STREAM_ON_DESKTOP"
      case PlayActivity => "PLAY_ACTIVITY"
      case WatchVideoOnMobile => "WATCH_VIDEO_ON_MOBILE"
    }
  }

  /** The supported task types, in the priority order the script tries them. */
  const SupportedTasks: seq<TaskType> :=
    [WatchVideo, PlayOnDesktop, StreamOnDesktop, PlayActivity, WatchVideoOnMobile]

  /** The driver's path choice: both video types take the video path and every other type the
      heartbeat path. */
  predicate IsVideo(t: TaskType) {
    t == WatchVideo || t == WatchVideoOnMobile
  }

  /** The path choice is the script's test `taskType.startsWith("WATCH_VIDEO")`. */
  lemma {:induction false} IsVideoIsWatchVideoPrefix(t: TaskType)
    ensures IsVideo(t) <==> "WATCH_VIDEO" <= t.Name()
  {
    if t.WatchVideoOnMobile? {
      assert t.Name()[..11] == "WATCH_VIDEO";
    } else if !IsVideo(t) {
      assert t.Name()[0] != 'W';
    }
  }

  /** One task of a quest; `target` is `None` when missing or null. */
  datatype TaskSpec = TaskSpec(target: Option<real>)

  /** A task configuration. A task type missing from `tasks` reads as `undefined`; one mapped to
      `None` holds `null`. */
  datatype TaskConfig = TaskConfig(tasks: map<TaskType, Option<TaskSpec>>)

  /** The user's status on a quest. Timestamps are milliseconds, `None` when missing, null or
      empty. A task type missing from `progress` stands for a missing entry, a null entry or an
      entry with a null `value` alike. */
  datatype UserStatus = UserStatus(enrolledAt: Option<int>, completedAt: Option<int>,
                                   progress: map<TaskType, real>,
                                   streamProgressSeconds: Option<real>)

  datatype QuestConfig = QuestConfig(expiresAt: int, taskConfig: Option<TaskConfig>,
                                     taskConfigV2: Option<TaskConfig>, questName: string)

  datatype Quest = Quest(id: string, config: QuestConfig, userStatus: Option<UserStatus>)

  /** `config.taskConfig ?? config.taskConfigV2` */
  function TaskConfigOf(q: Quest): Option<TaskConfig> {
    if q.config.taskConfig.Some? then q.config.taskConfig else q.config.taskConfigV2
  }

  predicate IsEnrolled(q: Quest) {
    q.userStatus.Some? && q.userStatus.value.enrolledAt.Some?
  }

  predicate IsCompleted(q: Quest) {
    q.userStatus.Some? && q.userStatus.value.completedAt.Some?
  }

  predicate IsExpired(q: Quest, now: int) {
    q.config.expiresAt <= now
  }

  /** `tasks[t] !== null`, the strict test of the discovery filter: a missing key passes. */
  predicate NotNull(tasks: map<TaskType, Option<TaskSpec>>, t: TaskType) {
    t !in tasks || tasks[t].Some?
  }

  /** `tasks[t] != null`, the loose test of the initialisation: a missing key fails. */
  predicate HasTask(tasks: map<TaskType, Option<TaskSpec>>, t: TaskType) {
    t in tasks && tasks[t].Some?
  }

  /** The discovery filter's test of one quest (a quest without task configuration is never
      tested: the filter throws on it first). */
  predicate Keeps(q: Quest, now: int) {
    && IsEnrolled(q) && !IsCompleted(q) && !IsExpired(q, now)
    && TaskConfigOf(q).Some?
    && exists k :: 0 <= k < |SupportedTasks| && NotNull(TaskConfigOf(q).value.tasks, SupportedTasks[k])
  }

  function ActiveTest(now: int): Quest -> bool {
    q => Keeps(q, now)
  }

  predicate AllConfigured(quests: seq<Quest>) {
    forall i :: 0 <= i < |quests| ==> TaskConfigOf(quests[i]).Some?
  }

  /** The elements of `s` that pass `keep`, in their order in `s`. */
  function Filter<T>(s: seq<T>, keep: T -> bool): seq<T> {
    if s == [] then []
    else Filter(s[..|s| - 1], keep) + (if keep(s[|s| - 1]) then [s[|s| - 1]] else [])
  }

  /** The positions of `s` whose elements pass `keep`, ascending. */
  function KeptIndices<T>(s: seq<T>, keep: T -> bool): seq<nat> {
    if s == [] then []
    else KeptIndices(s[..|s| - 1], keep) + (if keep(s[|s| - 1]) then [|s| - 1] else [])
  }

  /** `ids` are ascending positions of `s`, exactly those whose elements pass `keep`, and `r`
      lists the elements at those positions. */
  ghost predicate SelectsAt<T>(ids: seq<nat>, r: seq<T>, s: seq<T>, keep: T -> bool) {
    && |ids| == |r|
    && (forall k :: 0 <= k < |ids| ==> ids[k] < |s| && r[k] == s[ids[k]])
    && (forall k, l :: 0 <= k < l < |ids| ==> ids[k] < ids[l])
    && (forall i :: 0 <= i < |s| ==> (keep(s[i]) <==> i in ids))
  }

  /** `r` is the order-preserving subsequence of `s` made of the elements that pass `keep`. */
  ghost predicate IsOrderedSelection<T>(r: seq<T>, s: seq<T>, keep: T -> bool) {
    exists ids :: SelectsAt(ids, r, s, keep)
  }

  lemma {:induction false} FilterSelectsInOrder<T>(s: seq<T>, keep: T -> bool)
    ensures SelectsAt(KeptIndices(s, keep), Filter(s, keep), s, keep)
  {
    if s != [] {
      var n := |s| - 1;
      var init := s[..n];
      FilterSelectsInOrder(init, keep);
      var ids, r := KeptIndices(s, keep), Filter(s, keep);
      var ids0, r0 := KeptIndices(init, keep), Filter(init, keep);
      assert forall k :: 0 <= k < |ids0| ==> ids0[k] < n;
      forall i | 0 <= i < |s|
        ensures keep(s[i]) <==> i in ids
      {
        if i < n {
          assert s[i] == init[i];
          assert i in ids <==> i in ids0;
        }
      }
    }
  }

  lemma {:induction false} FilterIsOrderedSelection<T>(s: seq<T>, keep: T -> bool)
    ensures IsOrderedSelection(Filter(s, keep), s, keep)
  {
    FilterSelectsInOrder(s, keep);
  }

  /** `getActiveQuests`: the quests of the store that are enrolled, not completed, not expired
      and have some supported task type whose entry is not `null`, in store order. It throws
      (`None`) when some quest has neither `taskConfig` nor `taskConfigV2`. */
  function ActiveQuests(quests: seq<Quest>, now: int): (r: Option<seq<Quest>>)
    ensures r.None? <==> exists i :: 0 <= i < |quests| && TaskConfigOf(quests[i]).None?
    ensures r.Some? ==> IsOrderedSelection(r.value, quests, ActiveTest(now))
    ensures r.Some? ==>
              forall k :: 0 <= k < |r.value| ==>
                var q := r.value[k];
                && q in quests && IsEnrolled(q) && !IsCompleted(q) && q.config.expiresAt > now
                && TaskConfigOf(q).Some?
                && exists t :: t in SupportedTasks && NotNull(TaskConfigOf(q).value.tasks, t)
  {
    if AllConfigured(quests) then
      FilterSelectsInOrder(quests, ActiveTest(now));
      Some(Filter(quests, ActiveTest(now)))
    else None
  }

  /** The first task type of `order` whose entry is not `null` or missing. */
  function FirstNonNull(order: seq<TaskType>, tasks: map<TaskType, Option<TaskSpec>>): (r: Option<TaskType>)
    ensures r.Some? ==>
              HasTask(tasks, r.value) &&
              exists k :: 0 <= k < |order| && order[k] == r.value &&
                          forall j :: 0 <= j < k ==> !HasTask(tasks, order[j])
    ensures r.None? <==> forall k :: 0 <= k < |order| ==> !HasTask(tasks, order[k])
  {
    if order == [] then None
    else if HasTask(tasks, order[0]) then Some(order[0])
    else
      var r := FirstNonNull(order[1..], tasks);
      assert forall k :: 1 <= k < |order| ==> order[k] == order[1..][k - 1];
      r
  }

  /** The record `initializeQuestState` builds, without the quest itself. `taskType` is `None`
      when no supported type has a task (the script's `undefined`). */
  datatype InitialState = InitialState(taskType: Option<TaskType>, secondsNeeded: real,
                                       currentProgress: real, completed: bool, enrolledAt: int)

  /** `initializeQuestState`, for a quest the discovery filter kept. */
  function InitializeQuestState(q: Quest): (s: InitialState)
    requires TaskConfigOf(q).Some? && IsEnrolled(q)
    ensures s.taskType == FirstNonNull(SupportedTasks, TaskConfigOf(q).value.tasks)
    ensures s.taskType.Some? ==>
              s.secondsNeeded == TaskConfigOf(q).value.tasks[s.taskType.value].value.target.GetOr(0.0)
    ensures s.taskType.None? ==> s.secondsNeeded == 0.0
    ensures (s.taskType.Some? && s.taskType.value in q.userStatus.value.progress) ==>
              s.currentProgress == q.userStatus.value.progress[s.taskType.value]
    ensures (s.taskType.None? || s.taskType.value !in q.userStatus.value.progress) ==>
              s.currentProgress == q.userStatus.value.streamProgressSeconds.GetOr(0.0)
    ensures s.completed <==> s.currentProgress >= s.secondsNeeded
    ensures s.enrolledAt == q.userStatus.value.enrolledAt.value
  {
    var tasks := TaskConfigOf(q).value.tasks;
    var status := q.userStatus.value;
    var taskType := FirstNonNull(SupportedTasks, tasks);
    var secondsNeeded := if taskType.Some? then tasks[taskType.value].value.target.GetOr(0.0) else 0.0;
    var currentProgress :=
      if taskType.Some? && taskType.value in status.progress then status.progress[taskType.value]
      else status.streamProgressSeconds.GetOr(0.0);
    InitialState(taskType, secondsNeeded, currentProgress, currentProgress >= secondsNeeded,
                 status.enrolledAt.value)
  }

  /** A quest whose configuration has no supported task starts with target 0, and so starts
      completed unless its fallback progress is negative. */
  lemma {:induction false} TasklessQuestStartsCompleted(q: Quest)
    requires TaskConfigOf(q).Some? && IsEnrolled(q)
    requires forall t :: t in SupportedTasks ==> !HasTask(TaskConfigOf(q).value.tasks, t)
    requires q.userStatus.value.streamProgressSeconds.GetOr(0.0) >= 0.0
    ensures InitializeQuestState(q).taskType.None?
    ensures InitializeQuestState(q).secondsNeeded == 0.0
    ensures InitializeQuestState(q).completed
  {
  }

  // The discovery filter as it was evidently meant: with the initialisation's loose test.

  predicate KeepsIntended(q: Quest, now: int) {
    && IsEnrolled(q) && !IsCompleted(q) && !IsExpired(q, now)
    && TaskConfigOf(q).Some?
    && exists k :: 0 <= k < |SupportedTasks| && HasTask(TaskConfigOf(q).value.tasks, SupportedTasks[k])
  }

  function IntendedTest(now: int): Quest -> bool {
    q => KeepsIntended(q, now)
  }

  /** The discovery filter with `!= null`: every quest it keeps starts with a task type. */
  function IntendedActiveQuests(quests: seq<Quest>, now: int): (r: Option<seq<Quest>>)
    ensures r.None? <==> exists i :: 0 <= i < |quests| && TaskConfigOf(quests[i]).None?
    ensures r.Some? ==> IsOrderedSelection(r.value, quests, IntendedTest(now))
    ensures r.Some? ==>
              forall k :: 0 <= k < |r.value| ==>
                var q := r.value[k];
                && q in quests && TaskConfigOf(q).Some? && IsEnrolled(q)
                && InitializeQuestState(q).taskType.Some?
  {
    if AllConfigured(quests) then
      FilterSelectsInOrder(quests, IntendedTest(now));
      var r := Filter(quests, IntendedTest(now));
      forall k | 0 <= k < |r|
        ensures InitializeQuestState(r[k]).taskType.Some?
      {
        var q := r[k];
        assert KeepsIntended(q, now);
        var j :| 0 <= j < |SupportedTasks| && HasTask(TaskConfigOf(q).value.tasks, SupportedTasks[j]);
      }
      Some(r)
    else None
  }

  /** The filter as written keeps a quest none of whose supported task types is present: every
      key is missing, and a missing key is not `=== null`. That quest starts with no task type,
      target 0, and already completed. */
  function TasklessQuest(): (q: Quest)
    ensures TaskConfigOf(q) == Some(TaskConfig(map[])) && IsEnrolled(q) && !IsCompleted(q)
  {
    Quest("q1", QuestConfig(1000, Some(TaskConfig(map[])), None, "Quest"),
          Some(UserStatus(Some(0), None, map[], None)))
  }

  lemma {:induction false} StrictFilterKeepsTasklessQuest()
    ensures ActiveQuests([TasklessQuest()], 0) == Some([TasklessQuest()])
    ensures !KeepsIntended(TasklessQuest(), 0)
  {
    var q := TasklessQuest();
    assert NotNull(TaskConfigOf(q).value.tasks, SupportedTasks[0]);
    assert ActiveTest(0)(q);
    assert AllConfigured([q]);
    assert [q][..0] == [];
    assert Filter([q], ActiveTest(0)) == [q];
  }

  /** The quest the strict filter lets through starts with no task type, target 0, completed. */
  lemma {:induction false} TasklessQuestIsDoneAtOnce()
    ensures InitializeQuestState(TasklessQuest()).taskType.None?
    ensures InitializeQuestState(TasklessQuest()).secondsNeeded == 0.0
    ensures InitializeQuestState(TasklessQuest()).completed
  {
    TasklessQuestStartsCompleted(TasklessQuest());
  }

  /** The intended filter drops it. */
  lemma {:induction false} IntendedFilterDropsTasklessQuest()
    ensures IntendedActiveQuests([TasklessQuest()], 0) == Some([])
  {
    var q := TasklessQuest();
    assert !KeepsIntended(q, 0);
    assert AllConfigured([q]);
    assert [q][..0] == [];
  }
}
