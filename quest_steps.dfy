/** One step of a quest's progress loop, as a function of the state before it and of what the
    host answers: the video step and the heartbeat step. */
module QuestSteps {
  import opened JsValues
  import opened QuestDiscovery

  /** How far ahead of the time elapsed since enrolment the video step may claim, in seconds. */
  const MAX_FUTURE: int := 10
  /** The seconds of video one step claims, before jitter. */
  const SPEED: int := 7

  /** The part of a quest's state that the steps change. */
  datatype Progress = Progress(current: real, completed: bool)

  /** A request the script sends: to `/quests/{questId}/video-progress` or
      `/quests/{questId}/heartbeat`. */
  datatype Post =
    | VideoProgress(questId: string, timestamp: real)
    | Heartbeat(questId: string, streamKey: string, terminal: bool)

  /** A step's effect: the progress after it and the posts it sent, in order. */
  datatype Step = Step(after: Progress, posts: seq<Post>)

  /** The body of a video-progress answer: its `completed_at` field. */
  datatype VideoBody = VideoBody(completedAt: Nullable<int>)

  /** The outcome of a video-progress post: it failed (threw), or it answered with a body,
      `None` when the body is missing. */
  datatype VideoReply = VideoFailed | VideoOk(body: Option<VideoBody>)

  /** The outcome of a non-terminal heartbeat post: it failed, or it answered with the progress
      values it reports per task type (a type missing from the map: no value reported). */
  datatype BeatReply = BeatFailed | BeatOk(progress: map<TaskType, real>)

  /** The furthest the video step may claim: whole seconds elapsed since enrolment, rounded
      down, plus `MAX_FUTURE`. */
  function MaxAllowed(now: int, enrolledAt: int): (m: int)
    ensures (m - MAX_FUTURE) * 1000 <= now - enrolledAt < (m - MAX_FUTURE + 1) * 1000
  {
    (now - enrolledAt) / 1000 + MAX_FUTURE
  }

  function Min(a: real, b: real): (m: real)
    ensures m <= a && m <= b && (m == a || m == b)
  {
    if a <= b then a else b
  }

  /** `res.body.completed_at !== null`: a missing field counts as reported completion. */
  predicate ServerReportsDone(body: VideoBody) {
    body.completedAt != Null
  }

  /** `processVideoStep`. Nothing happens when the claimed progress would outrun the time
      elapsed; otherwise one post claims `min(target, current + SPEED + jitter)`, which becomes
      the progress once the post succeeds. Completion, reported by the server or reached
      locally, sets `completed` and sends one more post pinned at the target. A missing answer
      body throws after the progress was stored. */
  function VideoStep(questId: string, target: real, enrolledAt: int, p: Progress,
                     now: int, jitter: real, reply: VideoReply): (s: Step)
    requires 0.0 <= jitter < 1.0
  {
    if (MaxAllowed(now, enrolledAt) as real) - p.current < SPEED as real then Step(p, [])
    else
      var next := Min(target, p.current + SPEED as real + jitter);
      var first := VideoProgress(questId, next);
      match reply
      case VideoFailed => Step(p, [first])
      case VideoOk(None) => Step(Progress(next, p.completed), [first])
      case VideoOk(Some(body)) =>
        if ServerReportsDone(body) || next >= target
        then Step(Progress(next, true), [first, VideoProgress(questId, target)])
        else Step(Progress(next, p.completed), [first])
  }

  /** What one video step does: the rate guard, the claimed time, failure, and completion with
      its pinned final post. */
  lemma {:induction false} VideoStepSpec(questId: string, target: real, enrolledAt: int, p: Progress,
                                        now: int, jitter: real, reply: VideoReply)
    requires 0.0 <= jitter < 1.0
    ensures var s := VideoStep(questId, target, enrolledAt, p, now, jitter, reply);
            && (s.posts == [] <==> (MaxAllowed(now, enrolledAt) as real) - p.current < SPEED as real)
            && (s.posts == [] ==> s.after == p)
            && |s.posts| <= 2
            && (s.posts != [] ==>
                  && s.posts[0].VideoProgress?
                  && s.posts[0].questId == questId
                  && var t := s.posts[0].timestamp;
                  && t == Min(target, p.current + SPEED as real + jitter)
                  && t <= target
                  && t < MaxAllowed(now, enrolledAt) as real + 1.0
                  && (t == target || p.current + SPEED as real <= t < p.current + SPEED as real + 1.0)
                  && (p.current < target ==> p.current < t))
            && (reply.VideoFailed? ==> s.after == p)
            && (reply.VideoOk? && s.posts != [] ==> s.after.current == s.posts[0].timestamp)
            && (s.after.current == p.current || (s.posts != [] && s.after.current == s.posts[0].timestamp))
            && (s.after.completed <==> p.completed || |s.posts| == 2)
            && (|s.posts| == 2 <==>
                  && s.posts != [] && reply.VideoOk? && reply.body.Some?
                  && (ServerReportsDone(reply.body.value) || s.posts[0].timestamp >= target))
            && (|s.posts| == 2 ==> s.posts[1] == VideoProgress(questId, target))
  {
  }

  /** `response.body?.progress?.[taskType]?.value ?? 0` */
  function Reported(progress: map<TaskType, real>, t: TaskType): real {
    if t in progress then progress[t] else 0.0
  }

  /** `processHeartbeatStep`, once its stream key is derived. A non-terminal heartbeat is
      posted; when it succeeds the server's value replaces the progress, and when that reaches
      the target a terminal heartbeat follows, whose success alone sets `completed`. */
  function HeartbeatStep(questId: string, taskType: TaskType, target: real, p: Progress,
                         key: string, reply: BeatReply, terminalOk: bool): (s: Step)
  {
    var beat := Heartbeat(questId, key, false);
    match reply
    case BeatFailed => Step(p, [beat])
    case BeatOk(progress) =>
      var server := Reported(progress, taskType);
      if server >= target
      then Step(Progress(server, p.completed || terminalOk), [beat, Heartbeat(questId, key, true)])
      else Step(Progress(server, p.completed), [beat])
  }

  /** What one heartbeat step does: the posts in order, failure, the server's value, and
      completion only after the terminal post. */
  lemma {:induction false} HeartbeatStepSpec(questId: string, taskType: TaskType, target: real,
                                            p: Progress, key: string, reply: BeatReply,
                                            terminalOk: bool)
    ensures var s := HeartbeatStep(questId, taskType, target, p, key, reply, terminalOk);
            && 1 <= |s.posts| <= 2
            && s.posts[0] == Heartbeat(questId, key, false)
            && (|s.posts| == 2 ==> s.posts[1] == Heartbeat(questId, key, true))
            && (reply.BeatFailed? ==> s.after == p)
            && (reply.BeatOk? ==> s.after.current == Reported(reply.progress, taskType))
            && (|s.posts| == 2 <==> reply.BeatOk? && s.after.current >= target)
            && (s.after.completed <==> p.completed || (|s.posts| == 2 && terminalOk))
  {
  }

  /** The heartbeat step does not keep progress monotone: the server's value replaces it. */
  lemma {:induction false} HeartbeatProgressMayDrop()
    ensures HeartbeatStep("q1", PlayOnDesktop, 900.0, Progress(300.0, false), "call:q1:1",
                          BeatOk(map[PlayOnDesktop := 120.0]), true).after.current < 300.0
  {
  }

  /** What the video loop receives from the host at one step. */
  datatype VideoInput = VideoInput(now: int, jitter: real, reply: VideoReply)

  predicate ValidJitters(inputs: seq<VideoInput>) {
    forall k :: 0 <= k < |inputs| ==> 0.0 <= inputs[k].jitter < 1.0
  }

  /** The video quest's loop: steps until it is completed or the inputs run out. */
  function VideoRun(questId: string, target: real, enrolledAt: int, p: Progress,
                    inputs: seq<VideoInput>): Step
    requires ValidJitters(inputs)
    decreases |inputs|
  {
    if p.completed || inputs == [] then Step(p, [])
    else
      var first := VideoStep(questId, target, enrolledAt, p, inputs[0].now, inputs[0].jitter, inputs[0].reply);
      var rest := VideoRun(questId, target, enrolledAt, first.after, inputs[1..]);
      Step(rest.after, first.posts + rest.posts)
  }

  /** A step whose post is not held back by the rate guard (enough time has passed to claim the
      whole target) and whose post is answered with a body. */
  predicate Timely(inp: VideoInput, enrolledAt: int, target: real) {
    && MaxAllowed(inp.now, enrolledAt) as real >= target + SPEED as real
    && inp.reply.VideoOk? && inp.reply.body.Some?
  }

  /** With timely answers, a video quest that starts at or below its target completes within
      `(target - current) / SPEED` steps, never claims more than the target, and its last post
      claims exactly the target. */
  lemma {:induction false} VideoRunCompletes(questId: string, target: real, enrolledAt: int,
                                            p: Progress, inputs: seq<VideoInput>)
    requires ValidJitters(inputs)
    requires forall k :: 0 <= k < |inputs| ==> Timely(inputs[k], enrolledAt, target)
    requires p.current <= target
    requires !p.completed ==> (|inputs| * SPEED) as real > target - p.current
    decreases |inputs|
    ensures var s := VideoRun(questId, target, enrolledAt, p, inputs);
            && s.after.completed
            && s.after.current <= target
            && (forall k :: 0 <= k < |s.posts| ==> s.posts[k].VideoProgress? && s.posts[k].timestamp <= target)
            && (!p.completed ==> s.posts != [] && s.posts[|s.posts| - 1] == VideoProgress(questId, target))
  {
    if !p.completed {
      var inp := inputs[0];
      var first := VideoStep(questId, target, enrolledAt, p, inp.now, inp.jitter, inp.reply);
      VideoStepSpec(questId, target, enrolledAt, p, inp.now, inp.jitter, inp.reply);
      assert Timely(inp, enrolledAt, target);
      var tail := inputs[1..];
      assert forall k :: 0 <= k < |tail| ==> tail[k] == inputs[k + 1];
      if !first.after.completed {
        assert first.after.current >= p.current + SPEED as real;
        assert (|tail| * SPEED) as real == (|inputs| * SPEED) as real - SPEED as real;
      }
      VideoRunCompletes(questId, target, enrolledAt, first.after, tail);
    }
  }

  /** The example of a quest that needs 300 seconds of video, starting from progress 0, with
      every step late enough after enrolment that the rate guard never holds it back:
      43 such steps complete it. */
  lemma {:induction false} ThreeHundredSecondQuestCompletes(enrolledAt: int, inputs: seq<VideoInput>)
    requires |inputs| == 43 && ValidJitters(inputs)
    requires forall k :: 0 <= k < |inputs| ==> Timely(inputs[k], enrolledAt, 300.0)
    ensures VideoRun("q1", 300.0, enrolledAt, Progress(0.0, false), inputs).after.completed
  {
    VideoRunCompletes("q1", 300.0, enrolledAt, Progress(0.0, false), inputs);
  }
}
