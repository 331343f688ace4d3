/**
 * The body of `scan()` as the step-by-step procedure it is: the scheme fallback, the
 * per-parameter copy, the early exits, and the nested tier/payload loops with the shared
 * `progress` counter. Each method is proved to compute what `Policy` says.
 */
module Orchestrator {
  import opened Outcomes
  import opened Text
  import opened Payloads
  import opened Scoring
  import opened Policy
  import opened Properties

  /**
   * The loop over the payloads of one parameter. `progress` starts at 0 for every parameter
   * and is shared by all tiers; when `payload_count` is truthy and reached, the `break`
   * leaves the inner loop only, and every later tier then breaks on its first payload.
   */
  method EvaluatePayloads(st0: State, ctx: Ctx, tiers: Tiers, env: Env) returns (st: State)
    requires ctx.positions > 0 && st0.status.Running?
    ensures st == RunPayloads(st0, Flatten(tiers)[..Budget(env.cfg.payloadCount, |Flatten(tiers)|)], ctx, env)
  {
    ghost var flat := Flatten(tiers);
    ghost var limit := Budget(env.cfg.payloadCount, |flat|);
    ghost var outcome := RunPayloads(st0, flat[..limit], ctx, env);
    var payloadCount := env.cfg.payloadCount;
    st := st0;
    var progress := 0;
    assert flat[progress..limit] == flat[..limit];
    for t := 0 to |tiers|
      invariant progress == Budget(payloadCount, |Flatten(tiers[..t])|) <= limit
      invariant st.status.Running?
      invariant RunPayloads(st, flat[progress..limit], ctx, env) == outcome
    {
      var (confidence, vects) := tiers[t];
      TierWithinFlatten(tiers, t);
      for j := 0 to |vects|
        invariant progress == Budget(payloadCount, Position(tiers, t, j)) <= limit
        invariant st.status.Running?
        invariant RunPayloads(st, flat[progress..limit], ctx, env) == outcome
      {
        if payloadCount != 0 && progress == payloadCount {
          break;
        }
        FlattenAt(tiers, t, j);
        RunPayloadsFirst(st, flat[progress..limit], ctx, env);
        assert flat[progress..limit][1..] == flat[progress + 1..limit];
        progress := progress + 1;
        st := TestPayload(st, confidence, vects[j], ctx, env);
        if !st.status.Running? {
          return;
        }
      }
    }
    assert tiers[..|tiers|] == tiers;
  }



  /**
   * One pass of the inner loop body: the path-mode rewrite, the POST decoding, the
   * `checker` call, the zero-fill, `max`, the classification and the operator prompt.
   */
  method TestPayload(st: State, confidence: int, vect: string, ctx: Ctx, env: Env) returns (next: State)
    requires ctx.positions > 0 && st.status.Running?
    ensures next == Step(st, Work(confidence, vect), ctx, env)
  {
    var vect := vect;
    if env.cfg.pathMode {
      vect := EscapeSlashes(vect);
    }
    var loggerVector := vect;
    if ctx.mode == Post {
      vect := env.unquote(vect);
    }
    var efficiencies := env.checker(ctx.params, vect);
    if efficiencies == [] {
      EmptyResultScoresZero(ctx.positions);
    }
    efficiencies := ZeroFill(efficiencies, ctx.positions);
    var bestEfficiency := Max(efficiencies);
    var verdict := Classify(bestEfficiency, vect, env.cfg.minEfficiency);
    next := st.(events := st.events + [Checked(ctx.param, confidence, loggerVector, vect, bestEfficiency, verdict)]);
    if verdict.Raised? {
      next := next.(status := Crashed(verdict.error));
    } else if verdict.value == Conclusive && !env.cfg.skip && env.cfg.payloadCount == 0 {
      if next.prompts < |env.answers| {
        var choice := LowerAscii(env.answers[next.prompts]);
        ConfirmsIsLowerY(env.answers[next.prompts]);
        next := next.(prompts := next.prompts + 1);
        if choice != "y" {
          next := next.(status := Quit);
        }
      } else {
        next := next.(status := Crashed(EOFError));
      }
    }
  }

  /**
   * One pass of the parameter loop: a fresh copy of the parameters with only `paramName`
   * overwritten, the reflection check, the payload count, and the payload loop.
   */
  method TestParameter(st: State, paramName: string, mode: Mode, params: map<string, string>, env: Env)
      returns (next: State)
    requires st.status.Running?
    ensures next == TestParam(st, paramName, mode, params, env)
  {
    var paramsCopy := params;
    paramsCopy := paramsCopy[paramName := MarkerValue(env.marker, env.encoding)];
    var positions := env.reflections(paramsCopy);
    if positions == 0 {
      next := st.(events := st.events + [NoReflection(paramName)]);
      return;
    }
    var vectors := env.generator(paramsCopy);
    var total := CountPayloads(vectors);
    if total == 0 {
      next := st.(events := st.events + [NoVectors(paramName)]);
      return;
    }
    next := EvaluatePayloads(st, Ctx(mode, paramName, paramsCopy, positions), vectors, env);
  }

  /** The loop over the parameters in order, stopping at the first one that ends the scan. */
  method TestParameters(mode: Mode, params: map<string, string>, order: seq<string>, env: Env) returns (st: State)
    ensures st == RunParams(State([], 0, Running), order, mode, params, env)
  {
    st := State([], 0, Running);
    ghost var start := st;
    for i := 0 to |order|
      invariant st.status.Running?
      invariant st == RunParams(start, order[..i], mode, params, env)
    {
      RunParamsSnoc(start, order, i, mode, params, env);
      st := TestParameter(st, order[i], mode, params, env);
      if !st.status.Running? {
        RunParamsStops(start, order, i + 1, mode, params, env);
        return;
      }
    }
    assert order[..|order|] == order;
  }

  /**
   * One scan of `target`. `httpsProbeSucceeds` is whether the HTTPS probe request returned,
   * `order` the dict order of `params`.
   */
  method Scan(target: string, paramData: Option<string>, httpsProbeSucceeds: bool,
              params: map<string, string>, order: seq<string>, env: Env) returns (report: Report)
    requires KeyOrder(order, params)
    ensures report == ScanOutcome(target, paramData, httpsProbeSucceeds, params, order, env)
  {
    var mode := if paramData.Some? && paramData.value != "" then Post else Get;
    var t := target;
    if !StartsWith(t, "http") {
      if httpsProbeSucceeds {
        t := "https://" + t;
      } else {
        t := "http://" + t;
      }
    }
    if params == map[] {
      report := Report(t, mode, State([], 0, NoParams));
      return;
    }
    var st := TestParameters(mode, params, order, env);
    report := Report(t, mode, st);
  }
}
