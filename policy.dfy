/**
 * The decision policy of the scan as functions of its inputs and collaborators: target
 * normalisation, the per-parameter marker copy, one step per tested payload, and the two
 * nested walks (over payloads within a parameter, over parameters within a scan) that stop
 * as soon as the operator quits or an exception is raised.
 */
module Policy {
  import opened Outcomes
  import opened Text
  import opened Payloads
  import opened Scoring

  /** Exactly one request mode is active per scan. */
  datatype Mode = Get | Post

  /** `GET, POST = (False, True) if paramData else (True, False)`: `None` and `""` are falsy. */
  function ChooseMode(paramData: Option<string>): (m: Mode)
    ensures m == Post <==> paramData.Some? && paramData.value != ""
  {
    if paramData.Some? && paramData.value != "" then Post else Get
  }

  /**
   * A target not starting with `http` gets `https://` when the HTTPS probe request succeeds
   * and `http://` when it raises; any other target is kept as it is.
   */
  function NormalizeTarget(target: string, httpsProbeSucceeds: bool): (r: string)
    ensures StartsWith(r, "http")
    ensures r == target <==> StartsWith(target, "http")
    ensures r == "https://" + target <==> !StartsWith(target, "http") && httpsProbeSucceeds
    ensures r == "http://" + target <==> !StartsWith(target, "http") && !httpsProbeSucceeds
  {
    assert ("https://" + target)[..4] == "http";
    assert ("http://" + target)[..4] == "http";
    if StartsWith(target, "http") then target
    else if httpsProbeSucceeds then "https://" + target
    else "http://" + target
  }

  /** Normalising an already normalised target changes nothing, whatever the second probe says. */
  lemma NormalizeTargetIdempotent(target: string, first: bool, second: bool)
    ensures NormalizeTarget(NormalizeTarget(target, first), second) == NormalizeTarget(target, first)
  {
  }

  /** The value put in place of the parameter under test: the marker, encoded if an encoding is set. */
  function MarkerValue(marker: string, encoding: Option<string -> string>): string {
    if encoding.Some? then encoding.value(marker) else marker
  }

  /** The fresh copy of the parameters with only `name` overwritten. */
  function InjectMarker(params: map<string, string>, name: string, value: string): (copy: map<string, string>)
    ensures copy.Keys == params.Keys + {name}
    ensures name in copy && copy[name] == value
    ensures forall k :: k in params && k != name ==> copy[k] == params[k]
  {
    params[name := value]
  }

  /** `order` lists the keys of `params` once each, in dict order. */
  predicate KeyOrder(order: seq<string>, params: map<string, string>) {
    && (forall k :: k in params ==> k in order)
    && (forall i :: 0 <= i < |order| ==> order[i] in params)
    && (forall i, j :: 0 <= i < j < |order| ==> order[i] != order[j])
  }

  /** Process-wide settings: path-injection mode, `skip`, `payload_count` and `minEfficiency`. */
  datatype Config = Config(pathMode: bool, skip: bool, payloadCount: int, minEfficiency: int)

  /** A set `skip` flag or a truthy `payload_count` means nobody is asked anything. */
  predicate Unattended(cfg: Config) {
    cfg.skip || cfg.payloadCount != 0
  }

  /**
   * The settings and the collaborators the scan consults. Each collaborator that talks to the
   * target is a function of the request it is given; the operator's answers are read in order.
   */
  datatype Env = Env(
    cfg: Config,
    marker: string,
    encoding: Option<string -> string>,
    reflections: map<string, string> -> nat,
    generator: map<string, string> -> Tiers,
    checker: (map<string, string>, string) -> seq<int>,
    unquote: string -> string,
    answers: seq<string>)

  /** What stays fixed while one parameter's payloads are tested. */
  datatype Ctx = Ctx(mode: Mode, param: string, params: map<string, string>, positions: nat)

  /** What the scan reports, in order. */
  datatype Event =
    | Checked(param: string, tier: int, displayed: string, sent: string, best: int, verdict: Result<Verdict>)
    | NoReflection(param: string)
    | NoVectors(param: string)

  datatype Status = Running | Quit | Crashed(error: Error) | NoParams

  /** The scan's running state: its report so far, how many answers were read, and whether it goes on. */
  datatype State = State(events: seq<Event>, prompts: nat, status: Status)

  datatype Report = Report(target: string, mode: Mode, state: State)

  /**
   * The operator lets the scan go on only when the lower-cased answer is `y`, that is,
   * when the answer is `y` or `Y` (`ConfirmsIsLowerY`).
   */
  predicate Confirms(answer: string) {
    answer == "y" || answer == "Y"
  }

  lemma ConfirmsIsLowerY(answer: string)
    ensures Confirms(answer) <==> LowerAscii(answer) == "y"
  {
    LowerIsY(answer);
  }

  /** Only a conclusive result prompts, and only when `skip` is off and `payload_count` is falsy. */
  predicate Prompts(verdict: Result<Verdict>, cfg: Config) {
    verdict == Ok(Conclusive) && !cfg.skip && cfg.payloadCount == 0
  }

  function Displayed(vect: string, pathMode: bool): string {
    if pathMode then EscapeSlashes(vect) else vect
  }

  function Sent(displayed: string, m: Mode, unquote: string -> string): string {
    if m == Get then displayed else unquote(displayed)
  }

  /** The report line for one tested payload. */
  function Evaluate(w: Work, ctx: Ctx, env: Env): (e: Event)
    requires ctx.positions > 0
    ensures e.Checked? && e.param == ctx.param && e.tier == w.tier
  {
    var displayed := Displayed(w.vect, env.cfg.pathMode);
    var sent := Sent(displayed, ctx.mode, env.unquote);
    var best := Max(ZeroFilled(env.checker(ctx.params, sent), ctx.positions));
    Checked(ctx.param, w.tier, displayed, sent, best, Classify(best, sent, env.cfg.minEfficiency))
  }

  /**
   * What is reported for a payload: in path mode the displayed string holds no `/`; a GET
   * request sends the displayed string, a POST request its `unquote`; the score is the best
   * of `checker`'s vector, 0 when that vector is empty; the verdict is `Classify`'s.
   */
  lemma EvaluateReports(w: Work, ctx: Ctx, env: Env)
    requires ctx.positions > 0
    ensures var e := Evaluate(w, ctx, env);
      var efficiencies := env.checker(ctx.params, e.sent);
      && (env.cfg.pathMode ==> '/' !in e.displayed && e.displayed == EscapeSlashes(w.vect))
      && (!env.cfg.pathMode ==> e.displayed == w.vect)
      && (ctx.mode == Get ==> e.sent == e.displayed)
      && (ctx.mode == Post ==> e.sent == env.unquote(e.displayed))
      && (efficiencies == [] ==> e.best == 0)
      && (efficiencies != [] ==> e.best in efficiencies && forall x :: x in efficiencies ==> x <= e.best)
      && e.verdict == Classify(e.best, e.sent, env.cfg.minEfficiency)
  {
    var e := Evaluate(w, ctx, env);
    if env.checker(ctx.params, e.sent) == [] {
      EmptyResultScoresZero(ctx.positions);
    }
  }

  /** One iteration of the inner loop: test, report, and maybe ask the operator. */
  function Step(st: State, w: Work, ctx: Ctx, env: Env): (r: State)
    requires ctx.positions > 0 && st.status.Running?
  {
    var e := Evaluate(w, ctx, env);
    var reported := st.(events := st.events + [e]);
    if e.verdict.Raised? then reported.(status := Crashed(e.verdict.error))
    else if !Prompts(e.verdict, env.cfg) then reported
    else if st.prompts < |env.answers| then
      reported.(prompts := st.prompts + 1,
                status := if Confirms(env.answers[st.prompts]) then Running else Quit)
    else reported.(status := Crashed(EOFError))
  }

  /**
   * A step reports exactly one line; it reads an answer only for a prompting verdict, and a
   * prompting verdict with an answer left uses up that answer; it quits only when that
   * answer is not `y`; it goes on exactly when classification raised
   * nothing and any prompt was answered `y`.
   */
  lemma StepOutcome(st: State, w: Work, ctx: Ctx, env: Env)
    requires ctx.positions > 0 && st.status.Running?
    ensures var r := Step(st, w, ctx, env);
      var v := Evaluate(w, ctx, env).verdict;
      && r.events == st.events + [Evaluate(w, ctx, env)]
      && st.prompts <= r.prompts <= st.prompts + 1
      && (r.prompts == st.prompts + 1 ==> Prompts(v, env.cfg))
      && (Prompts(v, env.cfg) && st.prompts < |env.answers| ==> r.prompts == st.prompts + 1)
      && (r.status == Quit ==>
            Prompts(v, env.cfg) && r.prompts == st.prompts + 1 <= |env.answers| && !Confirms(env.answers[st.prompts]))
      && (r.status.Running? <==>
            v.Ok? && (Prompts(v, env.cfg) ==> st.prompts < |env.answers| && Confirms(env.answers[st.prompts])))
      && (r.status == Crashed(IndexError) ==> v == Raised(IndexError))
      && (r.status == Crashed(EOFError) ==> Prompts(v, env.cfg) && r.prompts == st.prompts >= |env.answers|)
      && r.status != NoParams
  {
  }

  /** The inner loop over a parameter's payloads, stopping at the first step that does not go on. */
  function RunPayloads(st: State, ws: seq<Work>, ctx: Ctx, env: Env): State
    requires ctx.positions > 0 && st.status.Running?
    decreases |ws|
  {
    if ws == [] then st
    else
      var prev := RunPayloads(st, ws[..|ws| - 1], ctx, env);
      if prev.status.Running? then Step(prev, ws[|ws| - 1], ctx, env) else prev
  }

  /** `paramsCopy` while `name` is under test. */
  function CopyFor(params: map<string, string>, name: string, env: Env): map<string, string> {
    InjectMarker(params, name, MarkerValue(env.marker, env.encoding))
  }

  /** The payloads generated for `name`, in the order they are tried. */
  function WorkFor(params: map<string, string>, name: string, env: Env): seq<Work> {
    Flatten(env.generator(CopyFor(params, name, env)))
  }

  /** Everything the scan does for one parameter. */
  function TestParam(st: State, name: string, m: Mode, params: map<string, string>, env: Env): State
    requires st.status.Running?
  {
    var copy := CopyFor(params, name, env);
    var positions := env.reflections(copy);
    if positions == 0 then st.(events := st.events + [NoReflection(name)])
    else
      var work := WorkFor(params, name, env);
      if |work| == 0 then st.(events := st.events + [NoVectors(name)])
      else RunPayloads(st, work[..Budget(env.cfg.payloadCount, |work|)], Ctx(m, name, copy, positions), env)
  }

  /** The outer loop over the parameters, stopping once a parameter ends the scan. */
  function RunParams(st: State, names: seq<string>, m: Mode, params: map<string, string>, env: Env): State
    requires st.status.Running?
    decreases |names|
  {
    if names == [] then st
    else
      var prev := RunParams(st, names[..|names| - 1], m, params, env);
      if prev.status.Running? then TestParam(prev, names[|names| - 1], m, params, env) else prev
  }

  /** The whole scan of one target. */
  function ScanOutcome(target: string, paramData: Option<string>, httpsProbeSucceeds: bool,
                       params: map<string, string>, order: seq<string>, env: Env): Report
  {
    var t := NormalizeTarget(target, httpsProbeSucceeds);
    var m := ChooseMode(paramData);
    if params == map[] then Report(t, m, State([], 0, NoParams))
    else Report(t, m, RunParams(State([], 0, Running), order, m, params, env))
  }
}
