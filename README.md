# XSStrike scan orchestrator, modelled in Dafny

This project models the decision policy of `scan()` in XSStrike, a reflected-XSS scanner.
`scan()` normalises the target URL, picks GET or POST, and then walks the parameters one by
one. For each parameter it injects a marker into a fresh copy of the parameter map and asks
the HTML parser where the marker is reflected. It then asks the generator for payloads
grouped by confidence tier. It tests them in tier order under an optional `payload_count`
cap, scores each one, and classifies it as conclusive, probable or insufficient. After a
conclusive hit it may ask the operator whether to go on.

Layout:

- `outcomes.dfy` (`Outcomes`): `Option`, and the two Python exceptions the loop can raise on
  its own (`IndexError`, `EOFError`).
- `text.dfy` (`Text`): `startswith`, the path-mode rewrite `/` → `%2F`, the `%2F` → `/` fact
  about percent-decoding, and ASCII `lower()`.
- `payloads.dfy` (`Payloads`): the generator's tiers, the order in which they are walked
  (`Flatten`), the per-parameter `Budget`, and the `total` counting loop.
- `scoring.dfy` (`Scoring`): the zero-fill loop, `max`, and the three-way classifier.
- `policy.dfy` (`Policy`): the scan as functions. It holds the settings and collaborators
  (`Env`), the report (`Event`, `State`), one `Step` per tested payload, and the two folds
  `RunPayloads` and `RunParams`, which stop as soon as a step does not go on. `ScanOutcome`
  is the whole scan.
- `properties.dfy` (`Properties`): the lemmas about those functions.
- `orchestrator.dfy` (`Orchestrator`): `scan()` as the imperative procedure it is: the
  parameter loop with its per-iteration copy, the nested tier/payload loops with the shared
  `progress` counter and the `break`, and the loop body. Each method is proved to compute
  what `Policy` says.

Collaborators are parameters: `reflections` (number of positions `htmlParser` finds),
`generator`, `checker`, `unquote`, the optional `encoding`, and the operator's answers, read
in order. The marker `xsschecker` and `minEfficiency` are settings. The HTTPS probe of the
target is a boolean input.

Points where the code behaves in a way one might not expect:

- Path mode rewrites the payload variable itself, so a GET request transmits the `%2F` form.
  A POST request transmits `unquote` of it.
- The zero-fill happens only when `checker` returns an empty list. A non-empty but short list
  is not padded.
- The backslash test reads the first character of the SENT string, after `unquote`.

## Model

| member | source | states |
|---|---|---|
| Policy.ChooseMode | xsstrike/modes/scan.py:28 | POST exactly when `paramData` is a non-empty string; otherwise GET. Exactly one of the two holds. |
| Policy.NormalizeTarget | xsstrike/modes/scan.py:30-36 | The result starts with `http`. A target starting with `http` is unchanged. Otherwise the result is `https://`+target when the probe succeeds and `http://`+target when it raises. |
| Policy.NormalizeTargetIdempotent | xsstrike/modes/scan.py:30-36 | Normalising a normalised target changes nothing, whatever the second probe does. |
| Text.StartsWith | xsstrike/modes/scan.py:30 | `target.startswith('http')`: the string is at least as long as the prefix and begins with it. `Policy.NormalizeTarget` states the outcome of the test. |
| Policy.MarkerValue | xsstrike/modes/scan.py:68-71 | The value injected for the parameter under test: `encoding(xsschecker)` when an encoding is set, `xsschecker` itself otherwise. `Policy.InjectMarker` states where it lands. |
| Policy.KeyOrder | xsstrike/modes/scan.py:65 | `order` lists each key of `params` exactly once: every key appears, every entry is a key, and no entry repeats. `Orchestrator.Scan` requires it of the dict order it walks. |
| Policy.InjectMarker | xsstrike/modes/scan.py:65-71 | The copy has the original keys (plus `name`), holds the marker value at `name`, and equals the original everywhere else. |
| Policy.CopyFor | xsstrike/modes/scan.py:66-71 | `paramsCopy` for the parameter under test: a fresh copy of `params` with only that key set to `MarkerValue`. `Policy.InjectMarker` states its keys and values. |
| Policy.WorkFor | xsstrike/modes/scan.py:87-97 | The payloads `generator` crafts for the parameter's copy, in walking order. `Payloads.FlattenAt`, `Payloads.FlattenInTierOrder` and `Properties.PayloadCapPerParameter` state their order and how many are tested. |
| Payloads.CountPayloads | xsstrike/modes/scan.py:88-90 | The summing loop yields exactly the number of payloads the evaluation loop walks. |
| Payloads.FlattenAt | xsstrike/modes/scan.py:96-97 | Payload `j` of tier `t` is walked at position `Position(tiers, t, j)`, labelled with its tier. |
| Payloads.FlattenInTierOrder | xsstrike/modes/scan.py:96-97 | Tiers are walked in order, and payloads in order within a tier. |
| Text.EscapeSlashes | xsstrike/modes/scan.py:101-102 | The path-mode rewrite leaves no `/`. It lengthens the payload by two per `/`. |
| Text.EscapeChangesIffSlash | xsstrike/modes/scan.py:101-102 | The rewrite changes a payload exactly when the payload contains `/`. |
| Text.EscapeIdempotent | xsstrike/modes/scan.py:101-102 | Rewriting twice is rewriting once. |
| Text.DecodeSlashes | xsstrike/modes/scan.py:107 | The one fact about `unquote` the model uses: each `%2F` becomes `/` and every other character is kept. `Text.DecodeEscape` states that it undoes the path-mode rewrite. |
| Text.DecodeEscape | xsstrike/modes/scan.py:101-107 | Decoding `%2F` undoes the rewrite of any payload without `%`. |
| Properties.PathModeSentPayload | xsstrike/modes/scan.py:101-107 | In path mode a GET request sends the payload unchanged exactly when it has no `/`. A POST request whose `unquote` decodes `%2F` sends a `%`-free payload unchanged. |
| Policy.Displayed | xsstrike/modes/scan.py:101-103 | `loggerVector`: the payload with every `/` rewritten to `%2F` in path mode, the payload itself otherwise. `Policy.EvaluateReports` and `Text.EscapeSlashes` state its properties. |
| Policy.Sent | xsstrike/modes/scan.py:106-107 | The string handed to `checker`: the displayed string for GET, its `unquote` for POST. `Policy.EvaluateReports` and `Properties.PathModeSentPayload` state its properties. |
| Policy.Evaluate | xsstrike/modes/scan.py:101-113 | Every tested payload yields one `Checked` report for the parameter under test, labelled with the payload's tier. Its displayed string, sent string, score and verdict are stated in `EvaluateReports`. |
| Policy.Prompts | xsstrike/modes/scan.py:114-116 | The operator is asked exactly after a conclusive verdict when `skip` is off and `payload_count` is 0, Python's falsy value. |
| Policy.Step | xsstrike/modes/scan.py:101-122 | One iteration: report the payload, then end the scan as `Crashed` on a raised verdict, or for a prompting verdict read the next answer and quit unless it is `y`, or crash with `EOFError` when no answer is left. Its properties are `StepOutcome`. `Orchestrator.TestPayload` is proved to compute it. |
| Policy.EvaluateReports | xsstrike/modes/scan.py:101-114 | In path mode the displayed string has no `/`. GET sends the displayed string and POST sends its `unquote`. The score is the maximum of `checker`'s vector, or 0 when it is empty. The verdict is `Classify`'s on the sent string. |
| Scoring.ZeroFilled | xsstrike/modes/scan.py:110-112 | A non-empty `checker` vector is kept as it is. An empty one becomes one zero per reflection position. |
| Scoring.ZeroFill | xsstrike/modes/scan.py:110-112 | The loop gives a non-empty vector back unchanged. It turns an empty one into one zero per reflection. |
| Scoring.Max | xsstrike/modes/scan.py:113 | The result is an element of the vector, and no element exceeds it. |
| Scoring.EmptyResultScoresZero | xsstrike/modes/scan.py:110-113 | With at least one reflection, an empty `checker` result gives `bestEfficiency` 0. |
| Scoring.Classify | xsstrike/modes/scan.py:114-122 | Conclusive iff the score is 100, or the sent string starts with `\` and the score is at least 95. Probable iff not conclusive and the score is above `minEfficiency`. Otherwise insufficient. An empty sent string with a score other than 100 raises `IndexError`. |
| Scoring.Shown | xsstrike/modes/scan.py:114-122 | `display_payload` is called (lines 115 and 122) exactly for a conclusive or probable verdict. `Scoring.ShownIsMonotone` states that a higher score keeps it shown. |
| Scoring.ShownIsMonotone | xsstrike/modes/scan.py:114-122 | Within 0..100, raising the score never turns a displayed or conclusive result into one that is not. |
| Scoring.ClassifyScenarios | xsstrike/modes/scan.py:114-122 | 100 is conclusive. 96 after a backslash is conclusive. Against a floor of 90, 96 is probable and 85 is insufficient. |
| Policy.Confirms | xsstrike/modes/scan.py:119 | The answer lets the scan go on exactly when it is `y` or `Y`. `Policy.ConfirmsIsLowerY` states that this is the `lower() == 'y'` test. |
| Policy.ConfirmsIsLowerY | xsstrike/modes/scan.py:117-119 | The operator's answer lets the scan go on exactly when its lower-case form is `y`. |
| Text.LowerAscii | xsstrike/modes/scan.py:117-118 | `.lower()` on the answer, character by character, mapping `A`-`Z` to `a`-`z`. `Text.LowerIsY` states which answers lower to `y`. |
| Text.LowerIsY | xsstrike/modes/scan.py:117-119 | The lower-cased answer is `y` exactly for the answers `y` and `Y`. |
| Policy.StepOutcome | xsstrike/modes/scan.py:108-122 | A step reports one line. It reads an answer only for a conclusive verdict with `skip` off and `payload_count` falsy, and such a verdict with an answer left uses up exactly that answer, so answers are read in order. It quits only when that answer is not `y`. It goes on exactly when nothing was raised and any prompt got `y`. |
| Policy.RunPayloads | xsstrike/modes/scan.py:96-122 | The payload loop: `Step` over the walked payloads in order, stopping at the first step after which the scan does not go on. `RunPayloadsEvents`, `RunPayloadsStopReason`, `RunPayloadsCons` and `RunPayloadsStops` state its properties. |
| Policy.TestParam | xsstrike/modes/scan.py:65-122 | One parameter: the marker copy, then the no-reflection exit, the no-payload exit, or the payload loop over the first `Budget` payloads. `SkippedParameterIsNotTested` and `PayloadCapPerParameter` state its properties. |
| Policy.RunParams | xsstrike/modes/scan.py:65-122 | The parameter loop: `TestParam` for each parameter in dict order, stopping at the first parameter that ends the scan (`RunParamsStops`). |
| Policy.ScanOutcome | xsstrike/modes/scan.py:27-123 | The whole scan: the normalised target, the chosen mode, and either `NoParams` for an empty parameter map or the parameter loop's final state. `NoParametersNoTests` and `UnattendedScanNeverPrompts` state its properties. |
| Payloads.Flatten | xsstrike/modes/scan.py:96-97 | The walking order: tier by tier in dict order, each payload labelled with its tier. `FlattenAt` and `FlattenInTierOrder` state where each payload lands. |
| Payloads.Budget | xsstrike/modes/scan.py:95-99 | How many payloads one parameter gets: `payload_count` when it is positive and below `total`, otherwise `total`. The `break` at `progress == payload_count` stops the walk there (`Orchestrator.EvaluatePayloads`, `PayloadCapPerParameter`). |
| Properties.RunPayloadsEvents | xsstrike/modes/scan.py:96-113 | The payload loop reports one line per tested payload, in walking order. It tests every payload unless it stops, and then it has tested at least one. |
| Properties.RunPayloadsStopReason | xsstrike/modes/scan.py:114-120 | The payload loop quits only right after a prompting verdict whose answer was not `y`. It crashes only on the classifier's `IndexError` or when no answer is left. |
| Properties.RunPayloadsUnattended | xsstrike/modes/scan.py:116-120 | With `skip` set or `payload_count` truthy, the payload loop reads no answer and never quits. |
| Properties.PayloadCapPerParameter | xsstrike/modes/scan.py:95-108 | For a parameter with reflections and payloads, `progress` restarts at 0. At most `payload_count` payloads are tested when it is positive, and at most `total`. When nothing stops the scan, exactly `min(payload_count, total)` are tested, or all `total` when it is not positive. They are tested in walking order. |
| Properties.SkippedParameterIsNotTested | xsstrike/modes/scan.py:76-93 | A parameter without reflections, or with no payloads, is reported and gets no `checker` call. The scan goes on with the next parameter. |
| Properties.RunPayloadsCons | xsstrike/modes/scan.py:96-122 | The payload loop is the first payload's step followed by the rest of the loop from the state that step leaves, unless that step ended the scan. |
| Properties.RunPayloadsStops | xsstrike/modes/scan.py:119-120 | Once a payload ends the scan, the later payloads change nothing. |
| Properties.RunParamsStops | xsstrike/modes/scan.py:119-120 | Once a parameter ends the scan, the later parameters change nothing. |
| Properties.UnattendedScanNeverPrompts | xsstrike/modes/scan.py:116-120 | With `skip` set or `payload_count` truthy, the whole scan asks nothing and never quits. |
| Properties.NoParametersNoTests | xsstrike/modes/scan.py:55-57 | Without parameters the scan stops with nothing tested. |
| Properties.PerfectScoreScenario | xsstrike/modes/scan.py:65-122 | In GET mode (`paramData` is `None`) with path mode off, for `{"q": "x"}` with one reflection and one payload scoring `[100]`, a conclusive line with efficiency 100 is reported. The operator is asked unless `skip` or `payload_count` is set. |
| Properties.EmptyResultScenario | xsstrike/modes/scan.py:65-122 | In the same setup (GET mode, path mode off), with `minEfficiency >= 0`, a non-empty payload not starting with `\` and an empty `checker` result, the payload scores 0. The payload is insufficient and not shown, and the scan goes on without asking. |
| Orchestrator.TestPayload | xsstrike/modes/scan.py:101-122 | The loop body computes exactly one `Step`. |
| Orchestrator.EvaluatePayloads | xsstrike/modes/scan.py:95-123 | The nested tier/payload loops, with the shared `progress` counter and the inner `break`, compute `RunPayloads` over the first `Budget(payload_count, total)` payloads in walking order. |
| Orchestrator.TestParameter | xsstrike/modes/scan.py:65-123 | One pass of the parameter loop computes exactly `TestParam`: the fresh copy with the marker, the no-reflection and no-payload exits, and the payload loop. |
| Orchestrator.TestParameters | xsstrike/modes/scan.py:65-123 | The parameter loop computes `RunParams` over the parameters in dict order, stopping at the first parameter that ends the scan. |
| Orchestrator.Scan | xsstrike/modes/scan.py:27-123 | The whole procedure computes `ScanOutcome`. That covers the scheme fallback, the GET/POST choice, the fresh copy per parameter, the early exits, the payload loop, and stopping the scan on a quit or an exception. |

## Left out

- The first request to the target (line 38), the DOM check (`dom`), WAF detection
  (`wafDetector`) and `filterChecker` are not modelled. Their results are only logged and
  never steer the scan. The per-parameter request (line 72) is not a separate step: its
  response is what `reflections` and `generator` are functions of, so it does steer the scan
  through them.
- Exceptions raised by collaborators are not modelled. The requests at lines 38 and 72,
  `wafDetector` (line 58), `htmlParser` (line 73), `filterChecker` (line 83), `generator`
  (line 87) and `checker` (line 108) can raise, and `scan()` catches none of them, so such a
  raise ends the scan. Every collaborator in `Env` is a total function, and `Crashed` covers
  only the `IndexError` of line 114 and the `EOFError` of `input()`.
- The `headers`, `delay` and `timeout` arguments of `scan()` only pass through to the
  collaborators, and `delay` makes each request sleep. They are not modelled.
- `getUrl`, `getParams` and `urlparse` are left out. The parameter map and its dict order are
  inputs. The request `url` is not modelled, since the collaborators are functions of the
  parameter copy.
- `htmlParser` is reduced to the number of reflection positions. `checker` is a deterministic
  function of the parameter copy and the sent payload. Network nondeterminism is not modelled.
- `unquote` is an abstract function. Only the fact that `%2F` decodes to `/` is stated, in
  `Text.DecodeSlashes`.
- `lower()` is modelled on ASCII letters only. No other character lowers to `y`, so the
  confirmation rule is unaffected.
- Logging, colours, the progress line and `display_payload` formatting are left out. A
  display is a reported line whose verdict is conclusive or probable.
- `quit()` is modelled as the status `Quit` (or `NoParams` when there are no parameters)
  that ends the scan. It is not a process exit. `input()` at end of input is modelled as
  `Crashed(EOFError)`.
- The WAF probe's choice of the first parameter name is not modelled. It is informational.
