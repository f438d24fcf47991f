/** The step machine every orchestrator follows: a fixed sequence of guarded
    steps, each of which either returns (having set its fields) or raises.
    An ordinary exception writes a `FAILED_<step>` checkpoint and becomes a
    pipeline error carrying the step name and the state as it stood; a
    pipeline error raised inside a step passes through unwrapped. */
module Steps {
  import opened Wrappers

  /** `PipelineError` / `PipelineV2Error`: the failed step, the partial
      state, and the message of the original exception. */
  datatype PipelineError<S> = PipelineError(failedStep: string, partialState: S, cause: string)

  /** What the body of one guarded step does. `Threw` carries the state as
      the body left it when the exception escaped (fields it had already
      assigned stay assigned). */
  datatype Outcome<S> =
    | Ok(state: S)
    | Threw(state: S, message: string)
    | Propagated(error: PipelineError<S>)

  /** One guarded step: its failure name, the checkpoint label written after
      it succeeds (if any), and its body. */
  datatype Step<!S> = Step(name: string, checkpoint: Option<string>, body: S -> Outcome<S>)

  /** How a run ends, with the checkpoint labels written along the way. */
  datatype Run<S> =
    | Completed(state: S, checkpoints: seq<string>)
    | Failed(error: PipelineError<S>, checkpoints: seq<string>)

  /** The label `_fail` checkpoints under. */
  function FailedLabel(step: string): string {
    "FAILED_" + step
  }

  function LabelOf(c: Option<string>): seq<string> {
    match c
    case Some(l) => [l]
    case None => []
  }

  function Names<S>(steps: seq<Step<S>>): (ns: seq<string>)
    ensures |ns| == |steps|
    ensures forall i :: 0 <= i < |steps| ==> ns[i] == steps[i].name
  {
    seq(|steps|, i requires 0 <= i < |steps| => steps[i].name)
  }

  /** The run as the source executes it: steps in order, stopping at the
      first that raises. */
  function RunSteps<S>(steps: seq<Step<S>>, s: S): Run<S> {
    RunAt(steps, 0, s, [])
  }

  function RunAt<S>(steps: seq<Step<S>>, i: nat, s: S, log: seq<string>): Run<S>
    requires i <= |steps|
    decreases |steps| - i
  {
    if i == |steps| then Completed(s, log)
    else
      match steps[i].body(s)
      case Ok(t) => RunAt(steps, i + 1, t, log + LabelOf(steps[i].checkpoint))
      case Threw(t, m) => Failed(PipelineError(steps[i].name, t, m), log + [FailedLabel(steps[i].name)])
      case Propagated(e) => Failed(e, log)
  }

  // ---------------------------------------------------------------------
  // Reference semantics: the state after k successful steps
  // ---------------------------------------------------------------------

  /** The state after the first `k` steps, when all of them returned. */
  function Reached<S>(steps: seq<Step<S>>, s: S, k: nat): Option<S>
    requires k <= |steps|
  {
    if k == 0 then Some(s)
    else
      match Reached(steps, s, k - 1)
      case None => None
      case Some(t) =>
        match steps[k - 1].body(t)
        case Ok(u) => Some(u)
        case _ => None
  }

  /** The checkpoint labels the first `k` steps write on success. */
  function CheckpointsUpTo<S>(steps: seq<Step<S>>, k: nat): seq<string>
    requires k <= |steps|
  {
    if k == 0 then [] else CheckpointsUpTo(steps, k - 1) + LabelOf(steps[k - 1].checkpoint)
  }

  /** Checkpoints depend only on the steps counted: a longer step list
      agrees on its prefix. */
  lemma {:induction false} CheckpointsOfPrefix<S>(a: seq<Step<S>>, b: seq<Step<S>>, k: nat)
    requires k <= |a|
    ensures CheckpointsUpTo(a + b, k) == CheckpointsUpTo(a, k)
  {
    if k > 0 {
      CheckpointsOfPrefix(a, b, k - 1);
      assert (a + b)[k - 1] == a[k - 1];
    }
  }

  /** The checkpoints of two step lists run one after the other are the
      first list's followed by the second's. */
  lemma {:induction false} CheckpointsOfAppend<S>(a: seq<Step<S>>, b: seq<Step<S>>, k: nat)
    requires k <= |b|
    ensures CheckpointsUpTo(a + b, |a| + k) == CheckpointsUpTo(a, |a|) + CheckpointsUpTo(b, k)
  {
    if k == 0 {
      CheckpointsOfPrefix(a, b, |a|);
    } else {
      CheckpointsOfAppend(a, b, k - 1);
      assert (a + b)[|a| + k - 1] == b[k - 1];
    }
  }

  /** How many steps return before the first one raises (all of them when
      none does), counted from step `i` on. */
  function ProgressFrom<S>(steps: seq<Step<S>>, s: S, i: nat): (k: nat)
    requires i <= |steps| && Reached(steps, s, i).Some?
    ensures i <= k <= |steps| && Reached(steps, s, k).Some?
    ensures k < |steps| ==> !steps[k].body(Reached(steps, s, k).value).Ok?
    ensures forall j :: i <= j < k ==> Reached(steps, s, j).Some? && steps[j].body(Reached(steps, s, j).value).Ok?
    decreases |steps| - i
  {
    if i == |steps| then i
    else if steps[i].body(Reached(steps, s, i).value).Ok? then ProgressFrom(steps, s, i + 1)
    else i
  }

  function Progress<S>(steps: seq<Step<S>>, s: S): (k: nat)
    ensures k <= |steps| && Reached(steps, s, k).Some?
    ensures k < |steps| ==> !steps[k].body(Reached(steps, s, k).value).Ok?
    ensures forall j :: 0 <= j < k ==> Reached(steps, s, j).Some? && steps[j].body(Reached(steps, s, j).value).Ok?
  {
    ProgressFrom(steps, s, 0)
  }

  /** What a run that gets through `k` steps must end as: completion with
      every success checkpoint, or the error of step `k` with the
      checkpoints before it and, for an ordinary exception, its
      `FAILED_` checkpoint. */
  function Expected<S>(steps: seq<Step<S>>, s: S, k: nat): Run<S>
    requires k <= |steps| && Reached(steps, s, k).Some?
  {
    var t := Reached(steps, s, k).value;
    if k == |steps| then Completed(t, CheckpointsUpTo(steps, k))
    else
      match steps[k].body(t)
      case Ok(_) => Completed(t, CheckpointsUpTo(steps, k))
      case Threw(u, m) => Failed(PipelineError(steps[k].name, u, m), CheckpointsUpTo(steps, k) + [FailedLabel(steps[k].name)])
      case Propagated(e) => Failed(e, CheckpointsUpTo(steps, k))
  }

  /** The run ends exactly as the reference semantics says: it completes
      iff every step returns, and otherwise fails at the first step that
      raises, with that step's name and partial state. */
  lemma RunStepsSpec<S>(steps: seq<Step<S>>, s: S)
    ensures RunSteps(steps, s) == Expected(steps, s, Progress(steps, s))
    ensures RunSteps(steps, s).Completed? <==> Progress(steps, s) == |steps|
  {
    RunAtSpec(steps, s, 0, s, []);
  }

  lemma {:induction false} RunAtSpec<S>(steps: seq<Step<S>>, s0: S, i: nat, t: S, log: seq<string>)
    requires i <= |steps| && Reached(steps, s0, i) == Some(t)
    requires log == CheckpointsUpTo(steps, i)
    ensures RunAt(steps, i, t, log) == Expected(steps, s0, ProgressFrom(steps, s0, i))
    decreases |steps| - i
  {
    if i < |steps| {
      match steps[i].body(t)
      case Ok(u) =>
        assert Reached(steps, s0, i + 1) == Some(u);
        RunAtSpec(steps, s0, i + 1, u, log + LabelOf(steps[i].checkpoint));
      case Threw(_, _) =>
      case Propagated(_) =>
    }
  }

  /** A completed run passed through every step, and its state is the
      state after all of them. */
  lemma CompletedReachesEnd<S>(steps: seq<Step<S>>, s: S)
    requires RunSteps(steps, s).Completed?
    ensures Reached(steps, s, |steps|) == Some(RunSteps(steps, s).state)
    ensures RunSteps(steps, s).checkpoints == CheckpointsUpTo(steps, |steps|)
  {
    RunStepsSpec(steps, s);
  }

  /** A run that failed with an ordinary exception names a step that did
      raise, and wrote that step's `FAILED_` checkpoint last. */
  lemma FailureNamesRaisingStep<S>(steps: seq<Step<S>>, s: S)
    requires RunSteps(steps, s).Failed?
    ensures var k := Progress(steps, s);
      k < |steps| && Reached(steps, s, k).Some?
      && !steps[k].body(Reached(steps, s, k).value).Ok?
    ensures var k := Progress(steps, s);
      var r := RunSteps(steps, s);
      k < |steps| && steps[k].body(Reached(steps, s, k).value).Threw? ==>
        r.error.failedStep == steps[k].name
        && r.error.partialState == steps[k].body(Reached(steps, s, k).value).state
        && |r.checkpoints| > 0 && r.checkpoints[|r.checkpoints| - 1] == FailedLabel(steps[k].name)
  {
    RunStepsSpec(steps, s);
  }

  /** A property of the state that holds after step `k` and that every later
      step keeps when it returns holds of a completed run's final state. */
  lemma KeptToEnd<S(!new)>(steps: seq<Step<S>>, s: S, k: nat, P: S -> bool)
    requires k <= |steps| && Reached(steps, s, k).Some? && P(Reached(steps, s, k).value)
    requires forall j, t :: k <= j < |steps| && P(t) && steps[j].body(t).Ok? ==> P(steps[j].body(t).state)
    requires RunSteps(steps, s).Completed?
    ensures P(RunSteps(steps, s).state)
  {
    RunStepsSpec(steps, s);
    KeptFrom(steps, s, k, |steps|, P);
  }

  lemma {:induction false} KeptFrom<S(!new)>(steps: seq<Step<S>>, s: S, k: nat, m: nat, P: S -> bool)
    requires k <= m <= |steps| && Reached(steps, s, k).Some? && P(Reached(steps, s, k).value)
    requires forall j, t :: k <= j < |steps| && P(t) && steps[j].body(t).Ok? ==> P(steps[j].body(t).state)
    requires Reached(steps, s, m).Some?
    ensures P(Reached(steps, s, m).value)
    decreases m
  {
    if m > k {
      assert Reached(steps, s, m - 1).Some?;
      KeptFrom(steps, s, k, m - 1, P);
      var t := Reached(steps, s, m - 1).value;
      assert steps[m - 1].body(t).Ok?;
    }
  }

  /** A property that step `k` establishes whenever it returns, and that every
      later step keeps, holds of a completed run's final state. */
  lemma EstablishedBy<S(!new)>(steps: seq<Step<S>>, s: S, k: nat, P: S -> bool)
    requires k < |steps|
    requires forall t :: steps[k].body(t).Ok? ==> P(steps[k].body(t).state)
    requires forall j, t :: k < j < |steps| && P(t) && steps[j].body(t).Ok? ==> P(steps[j].body(t).state)
    requires RunSteps(steps, s).Completed?
    ensures P(RunSteps(steps, s).state)
  {
    CompletedPassesStep(steps, s, k);
    KeptToEnd(steps, s, k + 1, P);
  }

  /** A completed run reached every step and every step returned. */
  lemma CompletedPassesStep<S>(steps: seq<Step<S>>, s: S, k: nat)
    requires k < |steps| && RunSteps(steps, s).Completed?
    ensures Reached(steps, s, k).Some? && steps[k].body(Reached(steps, s, k).value).Ok?
    ensures Reached(steps, s, k + 1) == Some(steps[k].body(Reached(steps, s, k).value).state)
  {
    RunStepsSpec(steps, s);
    assert Progress(steps, s) == |steps|;
  }

  // ---------------------------------------------------------------------
  // Building step bodies from service calls
  // ---------------------------------------------------------------------

  /** The body of a step that makes one call and stores its value: on
      success the setter's result, on failure the state unchanged. */
  function Store<S, T>(call: S -> Result<T, string>, assign: (S, T) -> S): S -> Outcome<S> {
    s => match call(s)
         case Success(v) => Ok(assign(s, v))
         case Failure(m) => Threw(s, m)
  }

  /** Every body that raises leaves the state exactly as it found it. */
  ghost predicate Atomic<S(!new)>(steps: seq<Step<S>>) {
    forall k, t :: 0 <= k < |steps| && steps[k].body(t).Threw? ==> steps[k].body(t).state == t
  }

  /** No body raises a pipeline error of its own. */
  ghost predicate NeverPropagates<S(!new)>(steps: seq<Step<S>>) {
    forall k, t :: 0 <= k < |steps| ==> !steps[k].body(t).Propagated?
  }

  /** With atomic steps, a failed run carries the state after the steps
      before the failing one: the fields the failing step would have set
      keep their earlier values. */
  lemma AtomicFailureKeepsState<S(!new)>(steps: seq<Step<S>>, s: S)
    requires Atomic(steps) && NeverPropagates(steps)
    requires RunSteps(steps, s).Failed?
    ensures var k := Progress(steps, s);
      k < |steps| && RunSteps(steps, s).error.failedStep == steps[k].name
      && RunSteps(steps, s).error.partialState == Reached(steps, s, k).value
  {
    RunStepsSpec(steps, s);
    var k := Progress(steps, s);
    assert k < |steps|;
    var t := Reached(steps, s, k).value;
    assert steps[k].body(t).Threw?;
  }
  /** Every body but that of step `x` leaves the state as it found it when
      it raises. */
  ghost predicate AtomicExcept<S(!new)>(steps: seq<Step<S>>, x: nat) {
    forall k, t :: 0 <= k < |steps| && k != x && steps[k].body(t).Threw? ==> steps[k].body(t).state == t
  }

  /** When every step but `x` is atomic, a failed run carries the state the
      raising step left: the state after the steps before it, unless the
      raising step is `x`, whose partial writes stay. */
  lemma FailureKeepsStateExcept<S(!new)>(steps: seq<Step<S>>, s: S, x: nat)
    requires AtomicExcept(steps, x) && NeverPropagates(steps)
    requires RunSteps(steps, s).Failed?
    ensures var k := Progress(steps, s);
      k < |steps| && steps[k].body(Reached(steps, s, k).value).Threw?
      && RunSteps(steps, s).error.failedStep == steps[k].name
      && RunSteps(steps, s).error.partialState == steps[k].body(Reached(steps, s, k).value).state
      && (k != x ==> RunSteps(steps, s).error.partialState == Reached(steps, s, k).value)
  {
    RunStepsSpec(steps, s);
    var k := Progress(steps, s);
    assert k < |steps|;
    var t := Reached(steps, s, k).value;
    assert steps[k].body(t).Threw?;
  }

  /** A fan-out of one call per item whose results are gathered in item
      order: it returns every result when every call succeeds, and
      otherwise the error of the first call, in item order, that fails. */
  function CallAll<X, Y>(xs: seq<X>, f: X -> Result<Y, string>): (r: Result<seq<Y>, string>)
    ensures r.Success? <==> forall i :: 0 <= i < |xs| ==> f(xs[i]).Success?
    ensures r.Success? ==> |r.value| == |xs| && forall i :: 0 <= i < |xs| ==> r.value[i] == f(xs[i]).value
    ensures r.Failure? ==>
      (exists b :: 0 <= b < |xs| && f(xs[b]).Failure? && r.error == f(xs[b]).error
                   && forall i :: 0 <= i < b ==> f(xs[i]).Success?)
  {
    if |xs| == 0 then Success([])
    else
      match f(xs[0])
      case Failure(m) => Failure(m)
      case Success(y) =>
        var rest := CallAll(xs[1..], f);
        assert forall i :: 1 <= i < |xs| ==> xs[i] == xs[1..][i - 1];
        match rest
        case Success(ys) => Success([y] + ys)
        case Failure(m) =>
          assert exists b :: 0 <= b < |xs| - 1 && f(xs[1..][b]).Failure? && m == f(xs[1..][b]).error
                             && forall i :: 0 <= i < b ==> f(xs[1..][i]).Success?;
          var b :| 0 <= b < |xs| - 1 && f(xs[1..][b]).Failure? && m == f(xs[1..][b]).error
                   && forall i :: 0 <= i < b ==> f(xs[1..][i]).Success?;
          assert f(xs[b + 1]).Failure? && forall i :: 0 <= i < b + 1 ==> f(xs[i]).Success?;
          Failure(m)
  }
  /** A run whose later steps depend on the state the earlier ones reach
      (their number, say): the first steps run; if they complete, the
      steps `next` picks for the state reached run on, and the checkpoint
      log continues. */
  function RunThen<S>(first: seq<Step<S>>, s: S, next: S -> seq<Step<S>>): (r: Run<S>)
    ensures RunSteps(first, s).Failed? ==> r == RunSteps(first, s)
    ensures RunSteps(first, s).Completed? ==>
      var t := RunSteps(first, s).state;
      (r.Completed? <==> RunSteps(next(t), t).Completed?)
      && r.checkpoints == RunSteps(first, s).checkpoints + RunSteps(next(t), t).checkpoints
      && (r.Completed? ==> r.state == RunSteps(next(t), t).state)
      && (r.Failed? ==> r.error == RunSteps(next(t), t).error)
  {
    match RunSteps(first, s)
    case Failed(e, log) => Failed(e, log)
    case Completed(t, log) =>
      match RunSteps(next(t), t)
      case Completed(u, log2) => Completed(u, log + log2)
      case Failed(e, log2) => Failed(e, log + log2)
  }
}
