/**
  The handlers' control flow: a fixed list of steps run in order, stopping at
  the first failing step and leaving the effects of the earlier ones in place.
 */
module Pipeline {
  import opened Results
  import opened Host
  import opened Configs
  import opened Port

  /** Validation failures, reported before any step runs. */
  datatype Invalid = BadPort(reason: PortError) | NameNotString

  datatype Failure =
    | Rejected(reason: Invalid)
    | StepFailed(step: Step, cause: Cause)

  /**
    What a handler leaves behind: the host, how many steps of its plan it
    attempted (the failing one included), and the error it returned, if any.
   */
  datatype Report = Report(host: Host, attempted: nat, error: Option<Failure>)

  /**
    Runs `steps[i..]` in order. A failing step ends the run and is the last
    one attempted; its error is returned and the host is left as the failing
    step found it.
   */
  function RunFrom(steps: seq<Step>, i: nat, h: Host, faults: set<Step>): (r: Report)
    requires i <= |steps|
    ensures i <= r.attempted <= |steps|
    ensures r.error.None? ==> r.attempted == |steps|
    ensures r.error.Some? ==>
      && i < r.attempted
      && r.error.value.StepFailed?
      && r.error.value.step == steps[r.attempted - 1]
    ensures r.host.storage == h.storage
    decreases |steps| - i
  {
    if i == |steps| then Report(h, i, None)
    else
      match Apply(steps[i], h, faults)
      case Err(cause) => Report(h, i + 1, Some(StepFailed(steps[i], cause)))
      case Ok(next) => RunFrom(steps, i + 1, next, faults)
  }

  /**
    No rollback: when a run fails, the host it returns is exactly the host
    that running the steps before the failing one, all of which succeeded,
    produces.
   */
  lemma {:induction false} NoRollback(steps: seq<Step>, i: nat, h: Host, faults: set<Step>)
    requires i <= |steps|
    ensures var r := RunFrom(steps, i, h, faults);
      r.error.Some? ==>
        var before := RunFrom(steps[..r.attempted - 1], i, h, faults);
        before.error.None? && before.host == r.host
    decreases |steps| - i
  {
    var r := RunFrom(steps, i, h, faults);
    if i < |steps| && r.error.Some? {
      var step := Apply(steps[i], h, faults);
      if step.Err? {
        assert r.attempted == i + 1;
      } else {
        var next := step.value;
        NoRollback(steps, i + 1, next, faults);
        RunStep(steps, i, h, next, faults);
        var prefix := steps[..r.attempted - 1];
        assert prefix[i] == steps[i];
        RunStep(prefix, i, h, next, faults);
      }
    }
  }

  /**
    Every intermediate host of a run that succeeds: `hs[k]` is the host after
    the first `k` steps.
   */
  function SuccessHosts(steps: seq<Step>, h: Host, faults: set<Step>): (hs: seq<Host>)
    requires RunFrom(steps, 0, h, faults).error.None?
    ensures |hs| == |steps| + 1 && hs[0] == h
    ensures forall k :: 0 <= k < |steps| ==> Apply(steps[k], hs[k], faults) == Ok(hs[k + 1])
    ensures hs[|steps|] == RunFrom(steps, 0, h, faults).host
  {
    SuccessHostsFrom(steps, 0, h, faults)
  }

  function SuccessHostsFrom(steps: seq<Step>, i: nat, h: Host, faults: set<Step>): (hs: seq<Host>)
    requires i <= |steps| && RunFrom(steps, i, h, faults).error.None?
    ensures |hs| == |steps| - i + 1 && hs[0] == h
    ensures forall k :: 0 <= k < |steps| - i ==> Apply(steps[i + k], hs[k], faults) == Ok(hs[k + 1])
    ensures hs[|steps| - i] == RunFrom(steps, i, h, faults).host
    decreases |steps| - i
  {
    if i == |steps| then [h]
    else
      var next := Apply(steps[i], h, faults).value;
      [h] + SuccessHostsFrom(steps, i + 1, next, faults)
  }

  /** A stretch of steps that all succeed can be skipped over: the run continues after it. */
  lemma {:induction false} RunSegment(steps: seq<Step>, i: nat, hs: seq<Host>, faults: set<Step>)
    requires 0 < |hs| && i + |hs| - 1 <= |steps|
    requires forall k :: 0 <= k < |hs| - 1 ==> Apply(steps[i + k], hs[k], faults) == Ok(hs[k + 1])
    ensures RunFrom(steps, i, hs[0], faults) == RunFrom(steps, i + |hs| - 1, hs[|hs| - 1], faults)
    decreases |hs|
  {
    if 1 < |hs| {
      RunStep(steps, i, hs[0], hs[1], faults);
      RunSegment(steps, i + 1, hs[1..], faults);
    }
  }

  /** The failure a run reports is the one its last attempted step returns on the host the run stopped at. */
  lemma {:induction false} RunFailure(steps: seq<Step>, i: nat, h: Host, faults: set<Step>)
    requires i <= |steps|
    ensures var r := RunFrom(steps, i, h, faults);
      r.error.Some? ==> Apply(steps[r.attempted - 1], r.host, faults) == Err(r.error.value.cause)
    decreases |steps| - i
  {
    if i < |steps| {
      var step := Apply(steps[i], h, faults);
      if step.Ok? {
        RunFailure(steps, i + 1, step.value, faults);
      }
    }
  }

  /** A step that succeeds hands the run on to the next step. */
  lemma RunStep(steps: seq<Step>, i: nat, h: Host, next: Host, faults: set<Step>)
    requires i < |steps| && Apply(steps[i], h, faults) == Ok(next)
    ensures RunFrom(steps, i, h, faults) == RunFrom(steps, i + 1, next, faults)
  {
  }

  /** Steps that do not concern tenant `a` leave its artifacts as they were. */
  lemma {:induction false} RunKeepsOthers(steps: seq<Step>, i: nat, h: Host, faults: set<Step>, a: string)
    requires i <= |steps|
    requires forall j :: i <= j < |steps| ==> !Concerns(steps[j], a)
    ensures SameArtifacts(h, RunFrom(steps, i, h, faults).host, a)
    decreases |steps| - i
  {
    if i < |steps| {
      match Apply(steps[i], h, faults)
      case Err(_) =>
      case Ok(next) =>
        StepKeepsOthers(steps[i], h, faults, a);
        RunKeepsOthers(steps, i + 1, next, faults, a);
    }
  }

  predicate TouchesNginx(step: Step) {
    step.Systemctl? && step.unit == ProxyUnit && (step.verb == Restart || step.verb == Reload)
  }

  /** Without a restart or reload of nginx, nginx keeps the configuration it had. */
  lemma {:induction false} RunKeepsNginx(steps: seq<Step>, i: nat, h: Host, faults: set<Step>)
    requires i <= |steps|
    requires forall j :: i <= j < |steps| ==> !TouchesNginx(steps[j])
    ensures RunFrom(steps, i, h, faults).host.nginx == h.nginx
    decreases |steps| - i
  {
    if i < |steps| {
      match Apply(steps[i], h, faults)
      case Err(_) =>
      case Ok(next) =>
        RunKeepsNginx(steps, i + 1, next, faults);
    }
  }
}
