/** The plan of an evaluation run and its pacing rules (evaluation_pacing.go). */
module EvaluationPlan {
  import opened Base
  import opened Counting

  datatype ModelChannel = ModelChannel(id: string, rpm: int, enabled: bool, credentialActive: bool)

  datatype Binding = Binding(channel: string, enabled: bool)

  /** A sample, with what the policy's keyword rules make of its input. */
  datatype Sample = Sample(id: string, blocked: bool, ignored: bool)
  {
    /** Keyword rules answer without any upstream call. */
    predicate SkipsRouting() {
      blocked || ignored
    }
  }

  /** settingsValid is what the checks on the policy's other settings answer (prompt, thresholds, time
      limits, keyword lists). */
  datatype Plan = Plan(
    channels: seq<ModelChannel>, bindings: seq<Binding>, maxAttempts: int,
    settingsValid: bool, samples: seq<Sample>, targets: seq<string>, repetitions: nat, retries: nat, maxCost: int)

  /** Channel ids are unique, as the snapshot of the database gives them. */
  ghost predicate DistinctIds(channels: seq<ModelChannel>) {
    forall i, j :: 0 <= i < j < |channels| ==> channels[i].id != channels[j].id
  }

  function PacingInterval(rpm: int): (d: int)
    ensures 0 <= d && (0 < rpm ==> MINUTE < rpm * d)
    ensures 0 < rpm ==> rpm * (d - 2_000_000_000) <= MINUTE
  {
    if rpm <= 0 then 0
    else
      IntervalExceedsShare(rpm, MINUTE);
      MINUTE / rpm + 2 * SECOND
  }

  lemma IntervalExceedsShare(rpm: int, minute: int)
    requires 0 < rpm && 0 <= minute
    ensures 0 <= minute / rpm && minute < rpm * (minute / rpm + 2 * SECOND) && rpm * (minute / rpm) <= minute
  {
    assert minute == rpm * (minute / rpm) + minute % rpm;
    assert rpm * (minute / rpm + 2 * SECOND) == rpm * (minute / rpm) + rpm * (2 * SECOND);
    assert rpm * (2 * SECOND) >= rpm;
  }

  predicate Bound(plan: Plan, id: string) {
    exists b :: b in plan.bindings && b.enabled && b.channel == id
  }

  /** A channel a trial with this target may be routed to. */
  predicate Routable(plan: Plan, target: string, c: ModelChannel) {
    c.enabled && c.credentialActive && (target == "" || c.id == target) && Bound(plan, c.id)
  }

  function ChannelsFor(plan: Plan, target: string, channels: seq<ModelChannel>): (r: seq<ModelChannel>)
    ensures forall c :: c in r <==> c in channels && Routable(plan, target, c)
  {
    if channels == [] then []
    else
      var last := channels[|channels| - 1];
      ChannelsFor(plan, target, channels[..|channels| - 1]) + if Routable(plan, target, last) then [last] else []
  }

  method EvaluationChannels(plan: Plan, target: string) returns (channels: seq<ModelChannel>)
    ensures channels == ChannelsFor(plan, target, plan.channels)
  {
    channels := [];
    for i := 0 to |plan.channels|
      invariant channels == ChannelsFor(plan, target, plan.channels[..i])
    {
      assert plan.channels[..i + 1][..i] == plan.channels[..i];
      if Routable(plan, target, plan.channels[i]) {
        channels := channels + [plan.channels[i]];
      }
    }
    assert plan.channels[..|plan.channels|] == plan.channels;
  }

  /** Every channel of the trial that was called before is due at the given time. */
  ghost predicate AllDue(plan: Plan, target: string, pacer: map<string, int>, time: int) {
    forall c :: c in plan.channels && Routable(plan, target, c) && 0 < c.rpm && c.id in pacer ==>
      pacer[c.id] + PacingInterval(c.rpm) <= time
  }

  /** The longest time any of the channels still has to wait. */
  function DueIn(pacer: map<string, int>, channels: seq<ModelChannel>, now: int): (d: int)
    ensures 0 <= d
  {
    if channels == [] then 0
    else
      var c, rest := channels[|channels| - 1], DueIn(pacer, channels[..|channels| - 1], now);
      if c.id in pacer && 0 < c.rpm then Max(rest, pacer[c.id] + PacingInterval(c.rpm) - now) else rest
  }

  function PacingDelay(pacer: map<string, int>, plan: Plan, target: string, sample: Sample, now: int): (d: int)
    ensures 0 <= d
  {
    if sample.SkipsRouting() then 0 else DueIn(pacer, ChannelsFor(plan, target, plan.channels), now)
  }

  lemma {:induction false} DueExactly(pacer: map<string, int>, channels: seq<ModelChannel>, now: int, time: int)
    requires now <= time
    ensures now + DueIn(pacer, channels, now) <= time
            <==> forall c :: c in channels && 0 < c.rpm && c.id in pacer ==> pacer[c.id] + PacingInterval(c.rpm) <= time
  {
    if channels != [] {
      var front, last := channels[..|channels| - 1], channels[|channels| - 1];
      DueExactly(pacer, front, now, time);
      assert forall c :: c in channels <==> c in front || c == last;
    }
  }

  /** The pacing delay is the shortest one that makes every channel of the trial due. */
  lemma DelayIsShortest(pacer: map<string, int>, plan: Plan, target: string, sample: Sample, now: int, time: int)
    requires !sample.SkipsRouting() && now <= time
    ensures now + PacingDelay(pacer, plan, target, sample, now) <= time <==> AllDue(plan, target, pacer, time)
  {
    DueExactly(pacer, ChannelsFor(plan, target, plan.channels), now, time);
  }

  method Delay(pacer: map<string, int>, plan: Plan, target: string, sample: Sample, now: int) returns (delay: int)
    ensures delay == PacingDelay(pacer, plan, target, sample, now)
  {
    if sample.SkipsRouting() {
      return 0;
    }
    delay := 0;
    var channels := EvaluationChannels(plan, target);
    for i := 0 to |channels|
      invariant delay == DueIn(pacer, channels[..i], now)
    {
      var c := channels[i];
      assert channels[..i + 1][..i] == channels[..i];
      if c.id in pacer && 0 < c.rpm {
        delay := Max(delay, pacer[c.id] + PacingInterval(c.rpm) - now);
      }
    }
    assert channels[..|channels|] == channels;
  }

  // ---------- The time a run is given ----------

  function Longest(channels: seq<ModelChannel>): (d: int)
    ensures 0 <= d && forall c :: c in channels ==> PacingInterval(c.rpm) <= d
    ensures d == 0 || exists c :: c in channels && PacingInterval(c.rpm) == d
  {
    if channels == [] then 0
    else
      var last := channels[|channels| - 1];
      assert forall c :: c in channels ==> c in channels[..|channels| - 1] || c == last;
      Max(Longest(channels[..|channels| - 1]), PacingInterval(last.rpm))
  }

  /** The longest interval among the channels a target may be routed to. */
  function LongestInterval(plan: Plan, target: string): int {
    Longest(ChannelsFor(plan, target, plan.channels))
  }

  function IntervalOfTarget(plan: Plan): string -> int {
    (target: string) => LongestInterval(plan, target)
  }

  /** The trials each target can take. */
  function TrialsPerTarget(plan: Plan): int {
    |plan.samples| * plan.repetitions * (plan.retries + 1)
  }

  function RetryPauses(plan: Plan): int {
    |plan.samples| * |plan.targets| * plan.repetitions * plan.retries * (plan.retries + 1) / 2 * SECOND
  }

  /** evaluationTimeout as a formula: half an hour, the pacing of every trial, and the retry pauses. */
  function TimeoutOf(plan: Plan): int {
    30 * MINUTE + Sum(plan.targets, IntervalOfTarget(plan)) * TrialsPerTarget(plan) + RetryPauses(plan)
  }

  method LongestOf(plan: Plan, target: string) returns (interval: int)
    ensures interval == LongestInterval(plan, target)
  {
    interval := 0;
    var channels := EvaluationChannels(plan, target);
    for i := 0 to |channels|
      invariant interval == Longest(channels[..i])
    {
      assert channels[..i + 1][..i] == channels[..i];
      interval := Max(interval, PacingInterval(channels[i].rpm));
    }
    assert channels[..|channels|] == channels;
  }

  lemma AnotherTarget(targets: seq<string>, i: nat, f: string -> int, trials: int)
    requires i < |targets|
    ensures Sum(targets[..i + 1], f) * trials == Sum(targets[..i], f) * trials + f(targets[i]) * trials
  {
    SumPrefix(targets, i, f);
  }

  /** The loop over the targets. */
  method AddPacing(plan: Plan, start: int, trials: int) returns (budget: int)
    ensures budget == start + Sum(plan.targets, IntervalOfTarget(plan)) * trials
  {
    budget := start;
    ghost var f := IntervalOfTarget(plan);
    for i := 0 to |plan.targets|
      invariant budget == start + Sum(plan.targets[..i], f) * trials
    {
      var interval := LongestOf(plan, plan.targets[i]);
      AnotherTarget(plan.targets, i, f, trials);
      budget := budget + interval * trials;
    }
    assert plan.targets[..|plan.targets|] == plan.targets;
  }

  method EvaluationTimeout(plan: Plan) returns (budget: int)
    ensures budget == TimeoutOf(plan)
  {
    budget := AddPacing(plan, 30 * MINUTE, TrialsPerTarget(plan));
    budget := budget + RetryPauses(plan);
  }
}
