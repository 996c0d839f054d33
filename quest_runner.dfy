/** The per-quest state objects and the driver loop that steps them. */
module QuestRunner {
  import opened JsValues
  import opened QuestDiscovery
  import opened StreamKeys
  import opened QuestSteps

  /** The state of one quest during a run. What `initializeQuestState` fixes is constant; the
      steps update `currentProgress` and `completed` in place. */
  class QuestState {
    const quest: Quest
    const taskType: Option<TaskType>
    const secondsNeeded: real
    const enrolledAt: int
    var currentProgress: real
    var completed: bool

    function Snapshot(): Progress
      reads this
    {
      Progress(currentProgress, completed)
    }

    /** The state `initializeQuestState` builds for a quest the discovery filter kept. */
    constructor (q: Quest)
      requires TaskConfigOf(q).Some? && IsEnrolled(q)
      ensures quest == q
      ensures var s := InitializeQuestState(q);
              && taskType == s.taskType && secondsNeeded == s.secondsNeeded
              && enrolledAt == s.enrolledAt
              && currentProgress == s.currentProgress && completed == s.completed
    {
      var s := InitializeQuestState(q);
      quest := q;
      taskType := s.taskType;
      secondsNeeded := s.secondsNeeded;
      enrolledAt := s.enrolledAt;
      currentProgress := s.currentProgress;
      completed := s.completed;
    }

    /** `processVideoStep`; returns the posts it sent. */
    method ProcessVideoStep(now: int, jitter: real, reply: VideoReply) returns (posts: seq<Post>)
      requires 0.0 <= jitter < 1.0
      modifies this
      ensures var s := VideoStep(quest.id, secondsNeeded, enrolledAt, old(Snapshot()), now, jitter, reply);
              Snapshot() == s.after && posts == s.posts
    {
      posts := [];
      var maxAllowed := MaxAllowed(now, enrolledAt);
      if (maxAllowed as real) - currentProgress < SPEED as real {
        return;
      }
      var nextTime := Min(secondsNeeded, currentProgress + SPEED as real + jitter);
      posts := [VideoProgress(quest.id, nextTime)];
      match reply {
        case VideoFailed =>
          // the post threw; the error is swallowed
        case VideoOk(body) =>
          currentProgress := nextTime;
          if body.Some? && (ServerReportsDone(body.value) || currentProgress >= secondsNeeded) {
            completed := true;
            posts := posts + [VideoProgress(quest.id, secondsNeeded)];
          }
      }
    }

    /** `processHeartbeatStep`: derives the stream key from the channel stores, then steps;
        returns the posts it sent. */
    method ProcessHeartbeatStep(channels: ChannelView, reply: BeatReply, terminalOk: bool)
      returns (posts: seq<Post>)
      requires taskType.Some?
      modifies this
      ensures var s := HeartbeatStep(quest.id, taskType.value, secondsNeeded, old(Snapshot()),
                                     StreamKey(channels, quest.id), reply, terminalOk);
              Snapshot() == s.after && posts == s.posts
    {
      var streamKey := StreamKey(channels, quest.id);
      posts := [Heartbeat(quest.id, streamKey, false)];
      match reply {
        case BeatFailed =>
        case BeatOk(progress) =>
          currentProgress := Reported(progress, taskType.value);
          if currentProgress >= secondsNeeded {
            posts := posts + [Heartbeat(quest.id, streamKey, true)];
            if terminalOk {
              completed := true;
            }
          }
      }
    }
  }

  /** What the host supplies at one step of the driver: the clock, the jitter, the answer to a
      video-progress post, the channel stores' contents, the answer to a non-terminal heartbeat
      and whether a terminal heartbeat succeeds. A step uses the fields of its own path. */
  datatype StepInput = StepInput(now: int, jitter: real, videoReply: VideoReply,
                                 channels: ChannelView, beatReply: BeatReply, terminalOk: bool)

  /** One step the driver took: on which quest (its position), from which progress to which,
      and what it posted. */
  datatype StepRecord = StepRecord(quest: nat, before: Progress, after: Progress, posts: seq<Post>)

  /** How a run ends: every quest completed; the host's inputs ran out while quest `stoppedAt`
      was in progress; or the run threw on quest `stoppedAt`, which has no task type. */
  datatype RunOutcome = AllCompleted | OutOfInput(stoppedAt: nat) | Aborted(stoppedAt: nat)

  /** Step record `r` is the step the quest's path prescribes for input `inp`. */
  predicate Follows(st: QuestState, r: StepRecord, inp: StepInput) {
    && st.taskType.Some?
    && 0.0 <= inp.jitter < 1.0
    && var s :=
         if IsVideo(st.taskType.value)
         then VideoStep(st.quest.id, st.secondsNeeded, st.enrolledAt, r.before,
                        inp.now, inp.jitter, inp.videoReply)
         else HeartbeatStep(st.quest.id, st.taskType.value, st.secondsNeeded, r.before,
                            StreamKey(inp.channels, st.quest.id), inp.beatReply, inp.terminalOk);
       r.after == s.after && r.posts == s.posts
  }

  /** Every step in the log was taken on a quest of `states` that was not yet completed, and
      is the step that quest's path prescribes for the input it consumed. */
  ghost predicate StepsFollow(states: seq<QuestState>, inputs: seq<StepInput>, steps: seq<StepRecord>) {
    && |steps| <= |inputs|
    && forall k :: 0 <= k < |steps| ==>
         steps[k].quest < |states| && !steps[k].before.completed
         && Follows(states[steps[k].quest], steps[k], inputs[k])
  }

  /** The log takes the quests in order, one at a time: each step continues from the previous
      one of the same quest, a quest's first step starts from its progress before the run
      (`init`), and the log moves to a later quest only after completing the current one. */
  ghost predicate StepsChained(init: seq<Progress>, steps: seq<StepRecord>) {
    && (forall k :: 0 <= k < |steps| ==> steps[k].quest < |init|)
    && (forall k, l :: 0 <= k < l < |steps| ==> steps[k].quest <= steps[l].quest)
    && (steps != [] ==> steps[0].before == init[steps[0].quest])
    && (forall k, l :: 0 <= k && l == k + 1 && l < |steps| ==>
          if steps[k].quest == steps[l].quest
          then steps[l].before == steps[k].after
          else steps[k].after.completed && steps[l].before == init[steps[l].quest])
  }

  /** The progress of quest `j` after `steps`: the outcome of its last step, or `start` when
      it took none. */
  ghost function Current(steps: seq<StepRecord>, j: nat, start: Progress): Progress {
    if steps == [] then start
    else if steps[|steps| - 1].quest == j then steps[|steps| - 1].after
    else Current(steps[..|steps| - 1], j, start)
  }

  /** Appending a step that continues the last quest, or starts a later one once the last is
      completed, keeps the log chained. */
  lemma {:induction false} AppendStep(init: seq<Progress>, steps: seq<StepRecord>, r: StepRecord)
    requires StepsChained(init, steps)
    requires r.quest < |init|
    requires r.before == Current(steps, r.quest, init[r.quest])
    requires forall k :: 0 <= k < |steps| ==> steps[k].quest <= r.quest
    requires steps != [] && steps[|steps| - 1].quest != r.quest ==> steps[|steps| - 1].after.completed
    ensures StepsChained(init, steps + [r])
  {
    var start := init[r.quest];
    var s := steps + [r];
    assert s[..|steps|] == steps;
    if steps == [] {
      NoStepsYet(steps, r.quest, start);
    } else {
      var last := steps[|steps| - 1];
      if last.quest != r.quest {
        NoStepsYet(steps, r.quest, start);
      }
    }
  }

  lemma {:induction false} AppendFollow(states: seq<QuestState>, inputs: seq<StepInput>, steps: seq<StepRecord>,
                     r: StepRecord)
    requires StepsFollow(states, inputs, steps)
    requires |steps| < |inputs| && r.quest < |states| && !r.before.completed
    requires Follows(states[r.quest], r, inputs[|steps|])
    ensures StepsFollow(states, inputs, steps + [r])
  {
    var s := steps + [r];
    forall k | 0 <= k < |s|
      ensures s[k].quest < |states| && !s[k].before.completed && Follows(states[s[k].quest], s[k], inputs[k])
    {
      if k < |steps| {
        assert s[k] == steps[k];
      }
    }
  }

  lemma {:induction false} NoStepsYet(steps: seq<StepRecord>, j: nat, start: Progress)
    requires forall k :: 0 <= k < |steps| ==> steps[k].quest != j
    ensures Current(steps, j, start) == start
  {
    if steps != [] {
      var init := steps[..|steps| - 1];
      assert forall k :: 0 <= k < |init| ==> init[k] == steps[k];
      NoStepsYet(init, j, start);
    }
  }

  lemma {:induction false} CurrentAfterAppend(steps: seq<StepRecord>, r: StepRecord, j: nat, start: Progress)
    ensures Current(steps + [r], j, start) == if r.quest == j then r.after else Current(steps, j, start)
  {
    assert (steps + [r])[..|steps|] == steps;
  }

  /** One iteration of the driver's inner loop on a quest that has a task type: the video step
      when its type starts with `WATCH_VIDEO`, the heartbeat step otherwise. */
  method TakeStep(state: QuestState, i: nat, input: StepInput) returns (r: StepRecord)
    requires state.taskType.Some? && 0.0 <= input.jitter < 1.0
    modifies state
    ensures Follows(state, r, input)
    ensures r.quest == i && r.before == old(state.Snapshot()) && r.after == state.Snapshot()
  {
    var before := state.Snapshot();
    var posts;
    if IsVideo(state.taskType.value) {
      posts := state.ProcessVideoStep(input.now, input.jitter, input.videoReply);
    } else {
      posts := state.ProcessHeartbeatStep(input.channels, input.beatReply, input.terminalOk);
    }
    r := StepRecord(i, before, state.Snapshot(), posts);
  }

  /** The facts the driver keeps about its step log while it works on quest `i`: quests before
      `i` are completed, each quest's state is what its steps left it in, and quests that
      started completed were never stepped. */
  ghost predicate DriverInvariant(states: seq<QuestState>, init: seq<Progress>, inputs: seq<StepInput>,
                                  steps: seq<StepRecord>, i: nat)
    reads states
  {
    && i <= |states| && |init| == |states|
    && StepsFollow(states, inputs, steps) && StepsChained(init, steps)
    && (forall k :: 0 <= k < |steps| ==> steps[k].quest <= i)
    && (forall j :: 0 <= j < |states| ==> states[j].Snapshot() == Current(steps, j, init[j]))
    && (forall j :: 0 <= j < i ==> states[j].completed)
    && (forall j :: 0 <= j < |states| && init[j].completed ==>
          forall k :: 0 <= k < |steps| ==> steps[k].quest != j)
  }

  lemma {:induction false} NextQuest(states: seq<QuestState>, init: seq<Progress>, inputs: seq<StepInput>,
                  steps: seq<StepRecord>, i: nat)
    requires DriverInvariant(states, init, inputs, steps, i)
    requires i < |states| && states[i].completed
    ensures DriverInvariant(states, init, inputs, steps, i + 1)
  {
  }

  // The driver's log and the video loop of `QuestSteps`: on a video quest, the stretch of the
  // log that steps the quest is `VideoRun` over the inputs it consumed.

  /** What the video step reads of one driver input. */
  function VideoInputOf(inp: StepInput): VideoInput {
    VideoInput(inp.now, inp.jitter, inp.videoReply)
  }

  function VideoInputs(ins: seq<StepInput>): (vs: seq<VideoInput>)
    ensures |vs| == |ins| && forall k :: 0 <= k < |ins| ==> vs[k] == VideoInputOf(ins[k])
  {
    seq(|ins|, k requires 0 <= k < |ins| => VideoInputOf(ins[k]))
  }

  /** The posts of a stretch of the log, in order. */
  function PostsOf(rs: seq<StepRecord>): seq<Post> {
    if rs == [] then [] else rs[0].posts + PostsOf(rs[1..])
  }

  /** `rs` is a run of consecutive steps on quest state `st` starting from progress `p`, each
      consuming the matching element of `ins`. */
  ghost predicate QuestSegment(st: QuestState, p: Progress, rs: seq<StepRecord>, ins: seq<StepInput>) {
    && |rs| == |ins|
    && (forall k :: 0 <= k < |rs| ==> !rs[k].before.completed && Follows(st, rs[k], ins[k]))
    && (rs != [] ==> rs[0].before == p)
    && (forall k, l :: 0 <= k && l == k + 1 && l < |rs| ==> rs[l].before == rs[k].after)
  }

  /** On a video quest, a stretch of steps is exactly what the video loop does on its inputs. */
  lemma {:induction false} VideoSegmentIsVideoRun(st: QuestState, p: Progress, rs: seq<StepRecord>,
                                                 ins: seq<StepInput>)
    requires st.taskType.Some? && IsVideo(st.taskType.value)
    requires forall k :: 0 <= k < |ins| ==> 0.0 <= ins[k].jitter < 1.0
    requires QuestSegment(st, p, rs, ins)
    ensures VideoRun(st.quest.id, st.secondsNeeded, st.enrolledAt, p, VideoInputs(ins)) ==
            Step(if rs == [] then p else rs[|rs| - 1].after, PostsOf(rs))
    decreases |rs|
  {
    if rs != [] {
      var vs := VideoInputs(ins);
      assert vs[1..] == VideoInputs(ins[1..]);
      assert Follows(st, rs[0], ins[0]);
      var rest := rs[1..];
      assert QuestSegment(st, rs[0].after, rest, ins[1..]) by {
        forall k | 0 <= k < |rest|
          ensures !rest[k].before.completed && Follows(st, rest[k], ins[1..][k])
        {
          assert rest[k] == rs[k + 1];
        }
        if rest != [] {
          assert rs[1].before == rs[0].after;
        }
        forall k, l | 0 <= k && l == k + 1 && l < |rest|
          ensures rest[l].before == rest[k].after
        {
          assert rest[l] == rs[l + 1] && rest[k] == rs[k + 1];
          assert rs[l + 1].before == rs[k + 1].after;
        }
      }
      VideoSegmentIsVideoRun(st, rs[0].after, rest, ins[1..]);
      if rest != [] {
        assert rest[|rest| - 1] == rs[|rs| - 1];
      }
    }
  }

  /** In a chained log, the steps of quest `i` from its first one form a segment from the
      quest's progress before the run. */
  lemma {:induction false} LoggedSegment(states: seq<QuestState>, init: seq<Progress>,
                                        inputs: seq<StepInput>, steps: seq<StepRecord>,
                                        i: nat, a: nat, b: nat)
    requires StepsFollow(states, inputs, steps) && StepsChained(init, steps)
    requires a <= b <= |steps| && i < |states| && i < |init|
    requires forall k :: a <= k < b ==> steps[k].quest == i
    requires 0 < a < b ==> steps[a - 1].quest != i
    ensures QuestSegment(states[i], init[i], steps[a..b], inputs[a..b])
  {
    var rs := steps[a..b];
    forall k | 0 <= k < |rs|
      ensures !rs[k].before.completed && Follows(states[i], rs[k], inputs[a..b][k])
    {
      assert rs[k] == steps[a + k];
    }
    if a < b && 0 < a {
      var k, l := a - 1, a;
      assert steps[l].before == init[steps[l].quest];
    }
    forall k, l | 0 <= k && l == k + 1 && l < |rs|
      ensures rs[l].before == rs[k].after
    {
      var k', l' := a + k, a + l;
      assert steps[l'].quest == steps[k'].quest;
    }
  }

  /** A stretch of steps on a video quest that consumed enough timely inputs ends completed;
      none of its posts claims more than the target, and the last claims exactly the target. */
  lemma {:induction false} VideoSegmentCompletes(st: QuestState, p: Progress, rs: seq<StepRecord>,
                                                ins: seq<StepInput>)
    requires st.taskType.Some? && IsVideo(st.taskType.value)
    requires forall k :: 0 <= k < |ins| ==> 0.0 <= ins[k].jitter < 1.0
    requires QuestSegment(st, p, rs, ins) && rs != []
    requires p.current <= st.secondsNeeded
    requires forall k :: 0 <= k < |ins| ==> Timely(VideoInputOf(ins[k]), st.enrolledAt, st.secondsNeeded)
    requires (|rs| * SPEED) as real > st.secondsNeeded - p.current
    ensures rs[|rs| - 1].after.completed
    ensures var ps := PostsOf(rs);
            && (forall k :: 0 <= k < |ps| ==> ps[k].VideoProgress? && ps[k].timestamp <= st.secondsNeeded)
            && ps != [] && ps[|ps| - 1] == VideoProgress(st.quest.id, st.secondsNeeded)
  {
    VideoSegmentIsVideoRun(st, p, rs, ins);
    var vs := VideoInputs(ins);
    assert forall k :: 0 <= k < |vs| ==> Timely(vs[k], st.enrolledAt, st.secondsNeeded);
    assert !p.completed by {
      assert rs[0].before == p;
    }
    VideoRunCompletes(st.quest.id, st.secondsNeeded, st.enrolledAt, p, vs);
  }

  /** In the driver's log, the stretch of a video quest from its first step completes when it
      consumed enough timely inputs (as `VideoSegmentCompletes` states it). */
  lemma {:induction false} LoggedVideoQuestCompletes(states: seq<QuestState>, init: seq<Progress>,
                                                    inputs: seq<StepInput>, steps: seq<StepRecord>,
                                                    i: nat, a: nat, b: nat)
    requires StepsFollow(states, inputs, steps) && StepsChained(init, steps)
    requires forall k :: 0 <= k < |inputs| ==> 0.0 <= inputs[k].jitter < 1.0
    requires a < b <= |steps| && i < |states| && i < |init|
    requires forall k :: a <= k < b ==> steps[k].quest == i
    requires 0 < a ==> steps[a - 1].quest != i
    requires states[i].taskType.Some? && IsVideo(states[i].taskType.value)
    requires init[i].current <= states[i].secondsNeeded
    requires forall k :: a <= k < b ==>
               Timely(VideoInputOf(inputs[k]), states[i].enrolledAt, states[i].secondsNeeded)
    requires ((b - a) * SPEED) as real > states[i].secondsNeeded - init[i].current
    ensures steps[b - 1].after.completed
  {
    var ins := inputs[a..b];
    LoggedSegment(states, init, inputs, steps, i, a, b);
    assert forall k :: 0 <= k < |ins| ==> ins[k] == inputs[a + k];
    VideoSegmentCompletes(states[i], init[i], steps[a..b], ins);
    assert steps[a..b][b - a - 1] == steps[b - 1];
  }

  /** One pass of the driver's inner loop on quest `i`, with the step appended to the log. */
  method StepQuest(states: seq<QuestState>, i: nat, inputs: seq<StepInput>,
                   steps0: seq<StepRecord>, ghost init: seq<Progress>)
    returns (steps: seq<StepRecord>)
    requires forall a, b :: 0 <= a < b < |states| ==> states[a] != states[b]
    requires forall k :: 0 <= k < |inputs| ==> 0.0 <= inputs[k].jitter < 1.0
    requires i < |states| && DriverInvariant(states, init, inputs, steps0, i)
    requires !init[i].completed && !states[i].completed
    requires states[i].taskType.Some? && |steps0| < |inputs|
    modifies states[i]
    ensures DriverInvariant(states, init, inputs, steps, i)
    ensures |steps| == |steps0| + 1 && steps0 <= steps
    ensures steps[|steps0|].quest == i && steps[|steps0|].before == old(states[i].Snapshot())
    ensures steps[|steps0|].after == states[i].Snapshot()
  {
    var state := states[i];
    var r := TakeStep(state, i, inputs[|steps0|]);
    AppendStep(init, steps0, r);
    AppendFollow(states, inputs, steps0, r);
    forall j | 0 <= j < |states|
      ensures states[j].Snapshot() == Current(steps0 + [r], j, init[j])
    {
      CurrentAfterAppend(steps0, r, j, init[j]);
      if j != i {
        assert states[j] != state;
        assert states[j].Snapshot() == old(states[j].Snapshot());
      }
    }
    forall j | 0 <= j < i ensures states[j].completed {
      assert states[j] != state;
      assert states[j].completed == old(states[j].completed);
    }
    steps := steps0 + [r];
  }

  /** The inner loop of the driver, `while (!state.completed)`, on quest `i`. It stops early
      (`stopped`) when the quest has no task type, so that the run throws, or when the inputs
      run out. */
  method RunQuest(states: seq<QuestState>, i: nat, inputs: seq<StepInput>,
                  steps0: seq<StepRecord>, ghost init: seq<Progress>)
    returns (steps: seq<StepRecord>, stopped: bool)
    requires forall a, b :: 0 <= a < b < |states| ==> states[a] != states[b]
    requires forall k :: 0 <= k < |inputs| ==> 0.0 <= inputs[k].jitter < 1.0
    requires i < |states| && DriverInvariant(states, init, inputs, steps0, i)
    requires forall k :: 0 <= k < |steps0| ==> steps0[k].quest < i
    requires !init[i].completed
    modifies states[i]
    ensures DriverInvariant(states, init, inputs, steps, i)
    ensures !stopped <==> states[i].completed
    ensures stopped ==> states[i].taskType.None? || |steps| == |inputs|
    ensures steps0 <= steps
    ensures forall k :: |steps0| <= k < |steps| ==> steps[k].quest == i
  {
    steps := steps0;
    NoStepsYet(steps, i, init[i]);
    while !states[i].completed
      invariant DriverInvariant(states, init, inputs, steps, i)
      invariant steps0 <= steps
      invariant forall k :: |steps0| <= k < |steps| ==> steps[k].quest == i
      decreases |inputs| - |steps|
    {
      if states[i].taskType.None? || |steps| == |inputs| {
        return steps, true;
      }
      steps := StepQuest(states, i, inputs, steps, init);
    }
    return steps, false;
  }

  /** The driver loop of `runQuestCode`: takes the quests in list order, skips those already
      completed and steps each one, on the video path or the heartbeat path, until it is
      completed, before it moves on. Each step consumes the next of `inputs`. */
  method RunQuests(states: seq<QuestState>, inputs: seq<StepInput>)
    returns (outcome: RunOutcome, steps: seq<StepRecord>)
    requires forall i, j :: 0 <= i < j < |states| ==> states[i] != states[j]
    requires forall k :: 0 <= k < |inputs| ==> 0.0 <= inputs[k].jitter < 1.0
    modifies states
    ensures StepsFollow(states, inputs, steps)
    ensures StepsChained(old(seq(|states|, i requires 0 <= i < |states| reads states => states[i].Snapshot())), steps)
    ensures forall i :: 0 <= i < |states| ==>
              states[i].Snapshot() == Current(steps, i, old(states[i].Snapshot()))
    ensures forall i :: 0 <= i < |states| && old(states[i].completed) ==>
              forall k :: 0 <= k < |steps| ==> steps[k].quest != i
    ensures outcome.AllCompleted? ==> forall i :: 0 <= i < |states| ==> states[i].completed
    ensures !outcome.AllCompleted? ==>
              && outcome.stoppedAt < |states|
              && !states[outcome.stoppedAt].completed
              && (forall i :: 0 <= i < outcome.stoppedAt ==> states[i].completed)
              && (forall i :: outcome.stoppedAt < i < |states| ==>
                    states[i].Snapshot() == old(states[i].Snapshot()))
    ensures !outcome.AllCompleted? ==>
              forall k :: 0 <= k < |steps| ==> steps[k].quest <= outcome.stoppedAt
    ensures outcome.OutOfInput? ==> |steps| == |inputs| && states[outcome.stoppedAt].taskType.Some?
    ensures outcome.Aborted? ==> states[outcome.stoppedAt].taskType.None?
  {
    ghost var init := seq(|states|, i requires 0 <= i < |states| reads states => states[i].Snapshot());
    steps := [];
    var i := 0;
    while i < |states|
      invariant DriverInvariant(states, init, inputs, steps, i)
      invariant forall j :: 0 <= j < |states| ==> init[j] == old(states[j].Snapshot())
      invariant forall k :: 0 <= k < |steps| ==> steps[k].quest < i
    {
      if states[i].completed {
        NextQuest(states, init, inputs, steps, i);
        i := i + 1;
        continue;
      }
      var stopped;
      NoStepsYet(steps, i, init[i]);
      steps, stopped := RunQuest(states, i, inputs, steps, init);
      if stopped {
        forall j | i < j < |states| ensures Current(steps, j, init[j]) == init[j] {
          NoStepsYet(steps, j, init[j]);
        }
        // with no task type, `state.taskType.startsWith` throws and the run's catch ends the run
        return if states[i].taskType.None? then Aborted(i) else OutOfInput(i), steps;
      }
      NextQuest(states, init, inputs, steps, i);
      i := i + 1;
    }
    return AllCompleted, steps;
  }
}
