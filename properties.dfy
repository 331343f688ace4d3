/** What the scan's decision policy guarantees, proved about the functions of `Policy`. */
module Properties {
  import opened Outcomes
  import opened Text
  import opened Payloads
  import opened Scoring
  import opened Policy

  /** Once a prefix of the payloads ends the parameter, the remaining payloads change nothing. */
  lemma {:induction false} RunPayloadsStops(st: State, ws: seq<Work>, k: nat, ctx: Ctx, env: Env)
    requires ctx.positions > 0 && st.status.Running? && k <= |ws|
    requires !RunPayloads(st, ws[..k], ctx, env).status.Running?
    ensures RunPayloads(st, ws, ctx, env) == RunPayloads(st, ws[..k], ctx, env)
  {
    if k == |ws| {
      assert ws[..k] == ws;
    } else {
      var init := ws[..|ws| - 1];
      assert init[..k] == ws[..k];
      RunPayloadsStops(st, init, k, ctx, env);
    }
  }

  /** One more parameter extends the outer loop by one `TestParam`. */
  lemma RunParamsSnoc(st: State, names: seq<string>, i: nat, m: Mode, params: map<string, string>, env: Env)
    requires st.status.Running? && i < |names|
    requires RunParams(st, names[..i], m, params, env).status.Running?
    ensures RunParams(st, names[..i + 1], m, params, env) == TestParam(RunParams(st, names[..i], m, params, env), names[i], m, params, env)
  {
    assert names[..i + 1][..i] == names[..i];
  }

  /**
   * The inner loop can be read from the front: test the first payload, and go on with the
   * rest from the state it leaves unless it ended the parameter.
   */
  lemma {:induction false} RunPayloadsCons(st: State, w: Work, ws: seq<Work>, ctx: Ctx, env: Env)
    requires ctx.positions > 0 && st.status.Running?
    ensures var next := Step(st, w, ctx, env);
      RunPayloads(st, [w] + ws, ctx, env) == if next.status.Running? then RunPayloads(next, ws, ctx, env) else next
    decreases |ws|
  {
    if ws == [] {
      assert ([w] + ws)[..0] == [];
    } else {
      var init := ws[..|ws| - 1];
      RunPayloadsCons(st, w, init, ctx, env);
      assert ([w] + ws)[..|ws|] == [w] + init;
    }
  }

  /** `RunPayloadsCons` for a non-empty list split at its head. */
  lemma RunPayloadsFirst(st: State, ws: seq<Work>, ctx: Ctx, env: Env)
    requires ctx.positions > 0 && st.status.Running? && ws != []
    ensures var next := Step(st, ws[0], ctx, env);
      RunPayloads(st, ws, ctx, env) == if next.status.Running? then RunPayloads(next, ws[1..], ctx, env) else next
  {
    assert ws == [ws[0]] + ws[1..];
    RunPayloadsCons(st, ws[0], ws[1..], ctx, env);
  }

  /** Once a prefix of the parameters ends the scan, the remaining parameters change nothing. */
  lemma {:induction false} RunParamsStops(st: State, names: seq<string>, k: nat, m: Mode,
                                          params: map<string, string>, env: Env)
    requires st.status.Running? && k <= |names|
    requires !RunParams(st, names[..k], m, params, env).status.Running?
    ensures RunParams(st, names, m, params, env) == RunParams(st, names[..k], m, params, env)
  {
    if k == |names| {
      assert names[..k] == names;
    } else {
      var init := names[..|names| - 1];
      assert init[..k] == names[..k];
      RunParamsStops(st, init, k, m, params, env);
    }
  }

  /**
   * The inner loop reports one line per tested payload, in the order the payloads are given,
   * and tests every payload unless it stops early (and then it has tested at least one).
   */
  lemma {:induction false} RunPayloadsEvents(st: State, ws: seq<Work>, ctx: Ctx, env: Env)
    requires ctx.positions > 0 && st.status.Running?
    ensures var r := RunPayloads(st, ws, ctx, env);
      && |st.events| <= |r.events| <= |st.events| + |ws|
      && r.events[..|st.events|] == st.events
      && (forall k :: |st.events| <= k < |r.events| ==> r.events[k] == Evaluate(ws[k - |st.events|], ctx, env))
      && (r.status.Running? ==> |r.events| == |st.events| + |ws|)
      && (!r.status.Running? ==> |r.events| > |st.events|)
  {
    if ws != [] {
      var init := ws[..|ws| - 1];
      RunPayloadsEvents(st, init, ctx, env);
      var prev := RunPayloads(st, init, ctx, env);
      if prev.status.Running? {
        var r := Step(prev, ws[|ws| - 1], ctx, env);
        StepOutcome(prev, ws[|ws| - 1], ctx, env);
        forall k | |st.events| <= k < |r.events|
          ensures r.events[k] == Evaluate(ws[k - |st.events|], ctx, env)
        {
          if k < |prev.events| {
            assert ws[k - |st.events|] == init[k - |st.events|];
          }
        }
      }
    }
  }

  /**
   * The inner loop quits only right after a prompting verdict whose answer was not `y`, and
   * crashes only on an `IndexError` from the classifier or on running out of answers.
   */
  lemma {:induction false} RunPayloadsStopReason(st: State, ws: seq<Work>, ctx: Ctx, env: Env)
    requires ctx.positions > 0 && st.status.Running?
    ensures var r := RunPayloads(st, ws, ctx, env);
      && st.prompts <= r.prompts
      && r.status != NoParams
      && (r.status == Quit ==>
            && |r.events| > 0 && r.events[|r.events| - 1].Checked?
            && Prompts(r.events[|r.events| - 1].verdict, env.cfg)
            && st.prompts < r.prompts <= |env.answers|
            && !Confirms(env.answers[r.prompts - 1]))
      && (r.status == Crashed(IndexError) ==>
            && |r.events| > 0 && r.events[|r.events| - 1].Checked?
            && r.events[|r.events| - 1].verdict == Raised(IndexError))
      && (r.status == Crashed(EOFError) ==>
            && |r.events| > 0 && r.events[|r.events| - 1].Checked?
            && Prompts(r.events[|r.events| - 1].verdict, env.cfg)
            && r.prompts >= |env.answers|)
  {
    if ws != [] {
      var init := ws[..|ws| - 1];
      RunPayloadsStopReason(st, init, ctx, env);
      var prev := RunPayloads(st, init, ctx, env);
      if prev.status.Running? {
        StepOutcome(prev, ws[|ws| - 1], ctx, env);
      }
    }
  }

  /** With `skip` set or a truthy `payload_count`, the inner loop reads no answer and never quits. */
  lemma {:induction false} RunPayloadsUnattended(st: State, ws: seq<Work>, ctx: Ctx, env: Env)
    requires ctx.positions > 0 && st.status.Running? && Unattended(env.cfg)
    ensures var r := RunPayloads(st, ws, ctx, env);
      r.prompts == st.prompts && r.status != Quit
  {
    if ws != [] {
      var init := ws[..|ws| - 1];
      RunPayloadsUnattended(st, init, ctx, env);
      var prev := RunPayloads(st, init, ctx, env);
      if prev.status.Running? {
        StepOutcome(prev, ws[|ws| - 1], ctx, env);
      }
    }
  }

  /**
   * For a parameter that reflects and gets payloads, `progress` restarts at 0: the parameter
   * tests `min(payload_count, total)` payloads when `payload_count` is positive and all
   * `total` of them otherwise (fewer only when the scan stops there), in tier order.
   */
  lemma PayloadCapPerParameter(st: State, name: string, m: Mode, params: map<string, string>, env: Env)
    requires st.status.Running?
    requires env.reflections(CopyFor(params, name, env)) > 0
    requires WorkFor(params, name, env) != []
    ensures var work := WorkFor(params, name, env);
      var cap := env.cfg.payloadCount;
      var r := TestParam(st, name, m, params, env);
      var tested := |r.events| - |st.events|;
      && 0 < tested <= |work|
      && r.events[..|st.events|] == st.events
      && (cap > 0 ==> tested <= cap)
      && (r.status.Running? && cap > 0 ==> tested == if cap < |work| then cap else |work|)
      && (r.status.Running? && cap <= 0 ==> tested == |work|)
      && forall k :: 0 <= k < tested ==>
           r.events[|st.events| + k] ==
             Evaluate(work[k], Ctx(m, name, CopyFor(params, name, env), env.reflections(CopyFor(params, name, env))), env)
  {
    var copy := CopyFor(params, name, env);
    var work := WorkFor(params, name, env);
    var ctx := Ctx(m, name, copy, env.reflections(copy));
    var budget := Budget(env.cfg.payloadCount, |work|);
    RunPayloadsEvents(st, work[..budget], ctx, env);
    var r := RunPayloads(st, work[..budget], ctx, env);
    assert r == TestParam(st, name, m, params, env);
    assert budget > 0;
    forall k | 0 <= k < |r.events| - |st.events|
      ensures r.events[|st.events| + k] == Evaluate(work[k], ctx, env)
    {
      assert work[..budget][k] == work[k];
    }
  }

  /** A parameter without reflections, or without payloads, is reported and leads to no `checker` call. */
  lemma SkippedParameterIsNotTested(st: State, name: string, m: Mode, params: map<string, string>, env: Env)
    requires st.status.Running?
    requires env.reflections(CopyFor(params, name, env)) == 0 || WorkFor(params, name, env) == []
    ensures var r := TestParam(st, name, m, params, env);
      && r.status.Running? && r.prompts == st.prompts
      && r.events == st.events +
           [if env.reflections(CopyFor(params, name, env)) == 0 then NoReflection(name) else NoVectors(name)]
  {
  }

  lemma TestParamUnattended(st: State, name: string, m: Mode, params: map<string, string>, env: Env)
    requires st.status.Running? && Unattended(env.cfg)
    ensures var r := TestParam(st, name, m, params, env);
      r.status != Quit && r.prompts == st.prompts
  {
    var copy := CopyFor(params, name, env);
    var work := WorkFor(params, name, env);
    if env.reflections(copy) > 0 && work != [] {
      var ctx := Ctx(m, name, copy, env.reflections(copy));
      RunPayloadsUnattended(st, work[..Budget(env.cfg.payloadCount, |work|)], ctx, env);
    }
  }

  lemma {:induction false} RunParamsUnattended(st: State, names: seq<string>, m: Mode,
                                               params: map<string, string>, env: Env)
    requires st.status.Running? && Unattended(env.cfg)
    ensures var r := RunParams(st, names, m, params, env);
      r.status != Quit && r.prompts == st.prompts
  {
    if names != [] {
      var init := names[..|names| - 1];
      RunParamsUnattended(st, init, m, params, env);
      var prev := RunParams(st, init, m, params, env);
      if prev.status.Running? {
        TestParamUnattended(prev, names[|names| - 1], m, params, env);
      }
    }
  }

  /** With `skip` set or a truthy `payload_count`, the scan never asks the operator and never quits. */
  lemma UnattendedScanNeverPrompts(target: string, paramData: Option<string>, httpsProbeSucceeds: bool,
                                   params: map<string, string>, order: seq<string>, env: Env)
    requires Unattended(env.cfg)
    ensures var r := ScanOutcome(target, paramData, httpsProbeSucceeds, params, order, env);
      r.state.status != Quit && r.state.prompts == 0
  {
    if params != map[] {
      RunParamsUnattended(State([], 0, Running), order, ChooseMode(paramData), params, env);
    }
  }

  /** Without parameters the scan stops with nothing tested. */
  lemma NoParametersNoTests(target: string, paramData: Option<string>, httpsProbeSucceeds: bool,
                            order: seq<string>, env: Env)
    ensures var r := ScanOutcome(target, paramData, httpsProbeSucceeds, map[], order, env);
      r.state == State([], 0, NoParams)
  {
  }

  /**
   * Path mode rewrites the payload itself: a GET request carries `%2F` where the payload had
   * `/`, while a POST request decodes it back, so the generator's payload is sent unchanged
   * when it holds no `%` of its own and `unquote` turns `%2F` into `/`.
   */
  lemma PathModeSentPayload(w: Work, ctx: Ctx, env: Env)
    requires ctx.positions > 0 && env.cfg.pathMode
    requires ctx.mode == Post && '%' !in w.vect ==> env.unquote(EscapeSlashes(w.vect)) == DecodeSlashes(EscapeSlashes(w.vect))
    ensures var e := Evaluate(w, ctx, env);
      && (ctx.mode == Get ==> (e.sent == w.vect <==> '/' !in w.vect))
      && (ctx.mode == Post && '%' !in w.vect ==> e.sent == w.vect)
  {
    EvaluateReports(w, ctx, env);
    EscapeChangesIffSlash(w.vect);
    if '%' !in w.vect {
      DecodeEscape(w.vect);
    }
  }

  /** `paramsCopy` in the one-parameter scenarios below. */
  function QCopy(env: Env): map<string, string> {
    map["q" := MarkerValue(env.marker, env.encoding)]
  }

  /** The scan of `{"q": "x"}` in GET mode with one reflection and one payload `p`, up to `Step`. */
  lemma OneParameterScan(target: string, httpsProbeSucceeds: bool, p: string, tier: int, env: Env)
    requires env.reflections(QCopy(env)) == 1
    requires env.generator(QCopy(env)) == [(tier, [p])]
    ensures ScanOutcome(target, None, httpsProbeSucceeds, map["q" := "x"], ["q"], env).state ==
      Step(State([], 0, Running), Work(tier, p), Ctx(Get, "q", QCopy(env), 1), env)
  {
    var start := State([], 0, Running);
    var params := map["q" := "x"];
    var w := Work(tier, p);
    var ctx := Ctx(Get, "q", QCopy(env), 1);
    assert ["q"][..0] == [];
    assert RunParams(start, ["q"], Get, params, env) == TestParam(start, "q", Get, params, env);
    assert CopyFor(params, "q", env) == QCopy(env);
    var tiers: Tiers := [(tier, [p])];
    assert tiers[..0] == [];
    assert WorkFor(params, "q", env) == Flatten(tiers) == [w];
    assert [w][..Budget(env.cfg.payloadCount, 1)] == [w];
    assert [w][..0] == [];
    assert RunPayloads(start, [w], ctx, env) == Step(start, w, ctx, env);
  }

  /**
   * A payload scoring `[100]` is reported as conclusive with efficiency 100; unless `skip` or
   * `payload_count` is set, the operator is then asked, and the scan goes on only after `y`.
   */
  lemma PerfectScoreScenario(target: string, httpsProbeSucceeds: bool, p: string, tier: int, env: Env)
    requires !env.cfg.pathMode
    requires env.reflections(QCopy(env)) == 1
    requires env.generator(QCopy(env)) == [(tier, [p])]
    requires env.checker(QCopy(env), p) == [100]
    ensures var r := ScanOutcome(target, None, httpsProbeSucceeds, map["q" := "x"], ["q"], env).state;
      && r.events == [Checked("q", tier, p, p, 100, Ok(Conclusive))]
      && r.prompts == (if Unattended(env.cfg) || env.answers == [] then 0 else 1)
      && (r.status.Running? <==> Unattended(env.cfg) || (env.answers != [] && Confirms(env.answers[0])))
  {
    OneParameterScan(target, httpsProbeSucceeds, p, tier, env);
  }

  /**
   * An empty vector from `checker` is read as `[0]`: the payload is scored 0, judged
   * insufficient, not shown, and the scan goes on without asking anything.
   */
  lemma EmptyResultScenario(target: string, httpsProbeSucceeds: bool, p: string, tier: int, env: Env)
    requires !env.cfg.pathMode && env.cfg.minEfficiency >= 0
    requires p != "" && p[0] != '\\'
    requires env.reflections(QCopy(env)) == 1
    requires env.generator(QCopy(env)) == [(tier, [p])]
    requires env.checker(QCopy(env), p) == []
    ensures var r := ScanOutcome(target, None, httpsProbeSucceeds, map["q" := "x"], ["q"], env).state;
      r == State([Checked("q", tier, p, p, 0, Ok(Insufficient))], 0, Running)
  {
    OneParameterScan(target, httpsProbeSucceeds, p, tier, env);
    EmptyResultScoresZero(1);
  }
}
