/**
 * The scenario form of the "single source of truth" schema example: one
 * validation schema for a custom negotiation scenario, and the pure
 * transformations that derive a form default, a natural-language prompt and
 * the runtime `GameSetup` record from a form value, together with the enum
 * lists that the UI-parameter list and the JSON-Schema document repeat by hand.
 */
module SchemaExample {
  import opened Wrappers
  import opened Text

  // ---------------------------------------------------------------------------
  // The core metric enumeration
  // ---------------------------------------------------------------------------

  /** The eight values `zCoreMetric` admits. */
  datatype CoreMetric =
    | Quality | Speed | Cost | Innovation | Reliability | Security | UserSatisfaction | Other

  /** The label under which a metric travels as a string: one of the eight `zCoreMetric` lists. */
  function MetricLabel(m: CoreMetric): (text: string)
    ensures text in CoreMetricLabels
  {
    match m
    case Quality => "Quality"
    case Speed => "Speed"
    case Cost => "Cost"
    case Innovation => "Innovation"
    case Reliability => "Reliability"
    case Security => "Security"
    case UserSatisfaction => "User Satisfaction"
    case Other => "Other"
  }

  /** The labels `zCoreMetric` lists, in its order; the first one is the form default. */
  const CoreMetricLabels: seq<string> :=
    ["Quality", "Speed", "Cost", "Innovation", "Reliability", "Security", "User Satisfaction", "Other"]

  /** The metrics in the order `zCoreMetric` lists their labels. */
  const CoreMetricOptions: seq<CoreMetric> :=
    [Quality, Speed, Cost, Innovation, Reliability, Security, UserSatisfaction, Other]

  /** The labels of a list of metrics, in the same order. */
  function MetricLabels(ms: seq<CoreMetric>): (labels: seq<string>)
    ensures |labels| == |ms|
    ensures forall i :: 0 <= i < |ms| ==> labels[i] == MetricLabel(ms[i])
  {
    if ms == [] then [] else [MetricLabel(ms[0])] + MetricLabels(ms[1..])
  }

  /** The datatype lists exactly the schema's labels, in the schema's order. */
  lemma CoreMetricOptionsLabels()
    ensures MetricLabels(CoreMetricOptions) == CoreMetricLabels
  {

  }

  /** What `zCoreMetric` accepts: a string that is one of the eight labels, read as its metric. */
  function ParseMetric(s: string): (r: Option<CoreMetric>)
    ensures r.Some? <==> s in CoreMetricLabels
    ensures r.Some? ==> MetricLabel(r.value) == s
  {
    if s == "Quality" then Some(Quality)
    else if s == "Speed" then Some(Speed)
    else if s == "Cost" then Some(Cost)
    else if s == "Innovation" then Some(Innovation)
    else if s == "Reliability" then Some(Reliability)
    else if s == "Security" then Some(Security)
    else if s == "User Satisfaction" then Some(UserSatisfaction)
    else if s == "Other" then Some(Other)
    else None
  }

  /** Every metric's label is listed, and reading it back gives that metric. */
  lemma MetricLabelRoundTrip(m: CoreMetric)
    ensures m in CoreMetricOptions
    ensures MetricLabel(m) in CoreMetricLabels
    ensures ParseMetric(MetricLabel(m)) == Some(m)
  {
  }

  /** Two metrics with the same label are the same metric. */
  lemma MetricLabelInjective(m: CoreMetric, n: CoreMetric)
    requires MetricLabel(m) == MetricLabel(n)
    ensures m == n
  {

  }

  // ---------------------------------------------------------------------------
  // The form record and its validation schema
  // ---------------------------------------------------------------------------

  /**
   * One stakeholder of the form. `constraints` holds the value after the
   * schema's default, so a missing one is the empty string.
   */
  datatype Stakeholder = Stakeholder(
    id: string,
    name: string,
    role: string,
    priorities: string,
    constraints: string)

  /** `maxRounds`: a number, or the empty string that stands for "unset". */
  datatype MaxRounds = Unset | Rounds(n: int)

  /** The form value, as the schema's inferred type describes it. */
  datatype ScenarioForm = ScenarioForm(
    scenarioTitle: string,
    scenarioDescription: string,
    coreMetric: CoreMetric,
    stakeholders: seq<Stakeholder>,
    maxRounds: MaxRounds,
    comments: map<string, string>)

  const MinTitleLength := 3
  const MinDescriptionLength := 10
  const MaxStakeholders := 6
  const MinNameLength := 2
  const MinRoleLength := 2
  const MinPrioritiesLength := 5
  const MinRounds := 3
  const MaxRoundsLimit := 10

  /** The round count of a runtime setup whose form leaves `maxRounds` unset. */
  const DefaultRounds := 5

  predicate IsHexDigit(c: char) {
    ('0' <= c <= '9') || ('a' <= c <= 'f') || ('A' <= c <= 'F')
  }

  /**
   * The textual shape of a UUID: five groups of 8, 4, 4, 4 and 12 hexadecimal
   * digits, either case, separated by hyphens.
   */
  predicate IsUuid(s: string) {
    && |s| == 36
    && forall i :: 0 <= i < |s| ==>
         if i == 8 || i == 13 || i == 18 || i == 23 then s[i] == '-' else IsHexDigit(s[i])
  }

  /** What `zStakeholder` accepts. */
  predicate ValidStakeholder(s: Stakeholder) {
    && IsUuid(s.id)
    && |s.name| >= MinNameLength
    && |s.role| >= MinRoleLength
    && |s.priorities| >= MinPrioritiesLength
  }

  /** What the `maxRounds` union accepts: an integer in [3, 10], or unset. */
  predicate ValidMaxRounds(m: MaxRounds) {
    m.Rounds? ==> MinRounds <= m.n <= MaxRoundsLimit
  }

  /** What `zCustomScenarioForm` accepts. */
  predicate ValidForm(f: ScenarioForm) {
    && |f.scenarioTitle| >= MinTitleLength
    && |f.scenarioDescription| >= MinDescriptionLength
    && |f.stakeholders| <= MaxStakeholders
    && (forall i :: 0 <= i < |f.stakeholders| ==> ValidStakeholder(f.stakeholders[i]))
    && ValidMaxRounds(f.maxRounds)
  }

  // ---------------------------------------------------------------------------
  // createDefaultForm
  // ---------------------------------------------------------------------------

  /**
   * The empty form a UI starts from. It is not itself a valid form: its
   * title is shorter than the schema's minimum.
   */
  function CreateDefaultForm(): (f: ScenarioForm)
    ensures f.scenarioTitle == "" && f.scenarioDescription == ""
    ensures MetricLabel(f.coreMetric) == CoreMetricLabels[0]
    ensures f.stakeholders == [] && f.maxRounds == Unset && f.comments == map[]
    ensures !ValidForm(f)
  {
    ScenarioForm("", "", Quality, [], Unset, map[])
  }

  // ---------------------------------------------------------------------------
  // compileToPrompt
  // ---------------------------------------------------------------------------

  /** The prompt line of a stakeholder without its constraints part. */
  function StakeholderHead(s: Stakeholder): string {
    "- " + s.name + " (" + s.role + "): " + s.priorities
  }

  /** The prompt line of one stakeholder; the constraints part only when there are some. */
  function StakeholderLine(s: Stakeholder): (line: string)
    ensures SingleLine(line) <==>
      SingleLine(s.name) && SingleLine(s.role) && SingleLine(s.priorities) && SingleLine(s.constraints)
  {
    StakeholderHead(s) + (if s.constraints != "" then " | Constraints: " + s.constraints else "")
  }

  /** A stakeholder line opens with the head and carries a suffix exactly when constraints are present. */
  lemma StakeholderLineShape(s: Stakeholder)
    ensures var line, head := StakeholderLine(s), StakeholderHead(s);
      && |head| <= |line| && line[..|head|] == head
      && (|line| == |head| <==> s.constraints == "")
      && (s.constraints != "" ==> line[|head|..] == " | Constraints: " + s.constraints)
  {

  }

  /** One line per stakeholder, in the order given (`stakeholders.map`). */
  function StakeholderLines(ss: seq<Stakeholder>): (lines: seq<string>)
    ensures |lines| == |ss|
    ensures forall i :: 0 <= i < |ss| ==> lines[i] == StakeholderLine(ss[i])
  {
    if ss == [] then [] else [StakeholderLine(ss[0])] + StakeholderLines(ss[1..])
  }

  /**
   * Whether the prompt states a round count: `maxRounds` must be a number
   * and, JavaScript being what it is, a truthy one, so that 0 is left out.
   */
  predicate HasRoundsLine(f: ScenarioForm) {
    f.maxRounds.Rounds? && f.maxRounds.n != 0
  }

  /** The fixed opening of every prompt. */
  function PromptHeader(f: ScenarioForm): seq<string> {
    [ "Scenario: " + f.scenarioTitle,
      "Description: " + f.scenarioDescription,
      "Core Metric: " + MetricLabel(f.coreMetric),
      "",
      "Stakeholders:" ]
  }

  /** The lines `compileToPrompt` collects in `parts` before joining them. */
  function PromptLines(f: ScenarioForm): (lines: seq<string>)
    ensures |lines| == 5 + |f.stakeholders| + (if HasRoundsLine(f) then 2 else 0)
    ensures lines[..5] == PromptHeader(f)
    ensures forall i :: 0 <= i < |f.stakeholders| ==> lines[5 + i] == StakeholderLine(f.stakeholders[i])
    ensures HasRoundsLine(f) ==>
      lines[|lines| - 2..] == ["", "Maximum Rounds: " + IntToDecimal(f.maxRounds.n)]
  {
    var parts := PromptHeader(f) + StakeholderLines(f.stakeholders);
    if HasRoundsLine(f) then parts + ["", "Maximum Rounds: " + IntToDecimal(f.maxRounds.n)]
    else parts
  }

  /**
   * `compileToPrompt`: the prompt lines joined by newlines. When no field
   * holds a newline the prompt text determines its lines: splitting it at the
   * newlines gives exactly the lines that were joined.
   */
  function CompileToPrompt(f: ScenarioForm): (prompt: string)
    ensures PromptFieldsSingleLine(f) ==> SplitLines(prompt) == PromptLines(f)
  {
    if PromptFieldsSingleLine(f) then
      PromptLinesSingleLine(f);
      SplitJoin(PromptLines(f));
      JoinLines(PromptLines(f))
    else
      JoinLines(PromptLines(f))
  }

  /** True when no text field that reaches the prompt holds a newline. */
  predicate PromptFieldsSingleLine(f: ScenarioForm) {
    && SingleLine(f.scenarioTitle)
    && SingleLine(f.scenarioDescription)
    && forall i :: 0 <= i < |f.stakeholders| ==> SingleLine(StakeholderLine(f.stakeholders[i]))
  }

  lemma PromptLinesSingleLine(f: ScenarioForm)
    requires PromptFieldsSingleLine(f)
    ensures AllSingleLine(PromptLines(f))
  {
    var header, body := PromptHeader(f), StakeholderLines(f.stakeholders);
    PromptHeaderSingleLine(f);
    assert AllSingleLine(body) by {
      forall l | l in body ensures SingleLine(l) {
        var i :| 0 <= i < |body| && body[i] == l;
      }
    }
    AllSingleLineConcat(header, body);
    if HasRoundsLine(f) {
      var rounds := "Maximum Rounds: " + IntToDecimal(f.maxRounds.n);
      IntToDecimalSingleLine(f.maxRounds.n);
      SingleLineConcat("Maximum Rounds: ", IntToDecimal(f.maxRounds.n));
      AllSingleLineConcat(header + body, ["", rounds]);
    }
  }

  lemma PromptHeaderSingleLine(f: ScenarioForm)
    requires SingleLine(f.scenarioTitle) && SingleLine(f.scenarioDescription)
    ensures AllSingleLine(PromptHeader(f))
  {

  }

  // ---------------------------------------------------------------------------
  // toGameSetup and the runtime format
  // ---------------------------------------------------------------------------

  /** A stakeholder under its runtime name; `limitations` is `undefined` (`None`) rather than empty. */
  datatype Actor = Actor(
    id: string,
    name: string,
    role: string,
    objectives: string,
    limitations: Option<string>)

  /** The runtime format of a scenario, with field names of its own. */
  datatype GameSetup = GameSetup(
    title: string,
    description: string,
    metric: string,
    actors: seq<Actor>,
    rounds: int)

  /** The actor of one stakeholder: empty constraints leave `limitations` `undefined`. */
  function ToActor(s: Stakeholder): (a: Actor)
    ensures FromActor(a) == s
    ensures a.limitations != Some("")
  {
    Actor(s.id, s.name, s.role, s.priorities,
          if s.constraints != "" then Some(s.constraints) else None)
  }

  /** One actor per stakeholder, in the order given (`stakeholders.map`). */
  function ToActors(ss: seq<Stakeholder>): (actors: seq<Actor>)
    ensures |actors| == |ss|
    ensures forall i :: 0 <= i < |ss| ==> actors[i] == ToActor(ss[i])
  {
    if ss == [] then [] else [ToActor(ss[0])] + ToActors(ss[1..])
  }

  /** `toGameSetup`: the runtime format of a form. */
  function ToGameSetup(f: ScenarioForm): (g: GameSetup)
    ensures g.title == f.scenarioTitle && g.description == f.scenarioDescription
    ensures ParseMetric(g.metric) == Some(f.coreMetric)
    ensures |g.actors| == |f.stakeholders|
    ensures forall i :: 0 <= i < |g.actors| ==>
      var a, s := g.actors[i], f.stakeholders[i];
      && a.id == s.id && a.name == s.name && a.role == s.role && a.objectives == s.priorities
      && (a.limitations == None <==> s.constraints == "")
      && (a.limitations.Some? ==> a.limitations.value == s.constraints)
    ensures f.maxRounds.Rounds? ==> g.rounds == f.maxRounds.n
    ensures f.maxRounds.Unset? ==> g.rounds == DefaultRounds
  {
    MetricLabelRoundTrip(f.coreMetric);
    GameSetup(
      f.scenarioTitle,
      f.scenarioDescription,
      MetricLabel(f.coreMetric),
      ToActors(f.stakeholders),
      if f.maxRounds.Rounds? then f.maxRounds.n else DefaultRounds)
  }

  /** The stakeholder an actor came from: an `undefined` `limitations` was an empty `constraints`. */
  function FromActor(a: Actor): Stakeholder {
    Stakeholder(a.id, a.name, a.role, a.objectives,
                match a.limitations case Some(l) => l case None => "")
  }

  function FromActors(actors: seq<Actor>): seq<Stakeholder> {
    if actors == [] then [] else [FromActor(actors[0])] + FromActors(actors[1..])
  }

  /** The actor list loses nothing of the stakeholder list: it can be read back. */
  lemma {:induction false} FromActorsToActors(ss: seq<Stakeholder>)
    ensures FromActors(ToActors(ss)) == ss
  {
    if ss != [] {
      FromActorsToActors(ss[1..]);
      assert ToActors(ss)[1..] == ToActors(ss[1..]);
      assert ss == [ss[0]] + ss[1..];
    }
  }

  /** True when no actor carries a present but empty `limitations`. */
  predicate NoEmptyLimitations(actors: seq<Actor>) {
    forall i :: 0 <= i < |actors| ==> actors[i].limitations != Some("")
  }

  /**
   * Conversely, every actor list without a present-but-empty `limitations`
   * is the actor list of some stakeholders, and of those read back from it.
   */
  lemma {:induction false} ToActorsFromActors(actors: seq<Actor>)
    requires NoEmptyLimitations(actors)
    ensures ToActors(FromActors(actors)) == actors
  {
    if actors != [] {
      assert actors[0].limitations != Some("");
      ToActorsFromActors(actors[1..]);
      assert FromActors(actors)[1..] == FromActors(actors[1..]);
      assert actors == [actors[0]] + actors[1..];
    }
  }

  /** Every actor `toGameSetup` produces has a `limitations` that is `undefined` or non-empty. */
  lemma ToActorsNoEmptyLimitations(ss: seq<Stakeholder>)
    ensures NoEmptyLimitations(ToActors(ss))
  {
  }

  /** For a valid form the runtime round count lies within the schema's bounds. */
  lemma ValidFormRoundsInRange(f: ScenarioForm)
    requires ValidForm(f)
    ensures MinRounds <= ToGameSetup(f).rounds <= MaxRoundsLimit
    ensures ToGameSetup(f).rounds == (if f.maxRounds.Rounds? then f.maxRounds.n else DefaultRounds)
  {
  }

  /**
   * For a valid form the prompt and the runtime format agree: the prompt
   * names a round count exactly when the setup takes it from `maxRounds`,
   * and then it names the setup's count; otherwise the setup uses the default.
   */
  lemma PromptAgreesWithGameSetup(f: ScenarioForm)
    requires ValidForm(f)
    ensures HasRoundsLine(f) <==> f.maxRounds.Rounds?
    ensures var lines, g := PromptLines(f), ToGameSetup(f);
      && (HasRoundsLine(f) ==> lines[|lines| - 1] == "Maximum Rounds: " + IntToDecimal(g.rounds))
      && (!HasRoundsLine(f) ==> |lines| == 5 + |f.stakeholders| && g.rounds == DefaultRounds)
  {

  }

  /**
   * Without validation the two disagree: a round count of 0 reaches the
   * runtime format but is dropped from the prompt as a falsy value.
   */
  lemma ZeroRoundsDisagree(f: ScenarioForm)
    requires f.maxRounds == Rounds(0)
    ensures !ValidForm(f)
    ensures ToGameSetup(f).rounds == 0
    ensures |PromptLines(f)| == 5 + |f.stakeholders|
  {
  }

  /** `comments` is carried along but read by neither transformation. */
  lemma CommentsIgnored(f: ScenarioForm, c: map<string, string>)
    ensures CompileToPrompt(f.(comments := c)) == CompileToPrompt(f)
    ensures ToGameSetup(f.(comments := c)) == ToGameSetup(f)
  {

  }

  /** What the two transformations make of the default form. */
  lemma DefaultFormTransforms()
    ensures PromptLines(CreateDefaultForm()) ==
      ["Scenario: ", "Description: ", "Core Metric: Quality", "", "Stakeholders:"]
    ensures ToGameSetup(CreateDefaultForm()) == GameSetup("", "", "Quality", [], DefaultRounds)
  {
    var f := CreateDefaultForm();
    assert StakeholderLines([]) == [] && ToActors([]) == [];
    assert "Scenario: " + "" == "Scenario: " && "Description: " + "" == "Description: ";
    assert "Core Metric: " + MetricLabel(Quality) == "Core Metric: Quality";
    assert PromptHeader(f) == ["Scenario: ", "Description: ", "Core Metric: Quality", "", "Stakeholders:"];
    assert PromptLines(f) == PromptHeader(f) + [];
  }

  // ---------------------------------------------------------------------------
  // A worked example
  // ---------------------------------------------------------------------------

  /** A one-stakeholder merger negotiation with five rounds; `id` is the stakeholder's id. */
  function MergerTalks(id: string): ScenarioForm {
    ScenarioForm(
      "Merger Talks",
      "Two firms negotiate terms",
      Cost,
      [Stakeholder(id, "Ana", "CFO", "minimize cost", "")],
      Rounds(5),
      map[])
  }

  /** The example form passes the schema whenever its stakeholder id is UUID-shaped. */
  lemma MergerTalksValid(id: string)
    requires IsUuid(id)
    ensures ValidForm(MergerTalks(id))
  {
  }

  /** The example's prompt: the stakeholder line has no constraints part, and the round count closes it. */
  lemma MergerTalksPrompt(id: string)
    ensures PromptLines(MergerTalks(id)) ==
      [ "Scenario: Merger Talks",
        "Description: Two firms negotiate terms",
        "Core Metric: Cost",
        "",
        "Stakeholders:",
        "- Ana (CFO): minimize cost",
        "",
        "Maximum Rounds: 5" ]
  {
    var f := MergerTalks(id);
    var header := PromptHeader(f);
    MergerTalksHeader(f);
    var line := StakeholderLine(f.stakeholders[0]);
    MergerTalksLine(f.stakeholders[0]);
    assert StakeholderLines(f.stakeholders) == [line];
    var last := "Maximum Rounds: " + IntToDecimal(5);
    MaximumRoundsFive();
    assert PromptLines(f) == header + [line] + ["", last];
  }

  lemma MergerTalksHeader(f: ScenarioForm)
    requires f.scenarioTitle == "Merger Talks" && f.scenarioDescription == "Two firms negotiate terms"
    requires f.coreMetric == Cost
    ensures PromptHeader(f) ==
      ["Scenario: Merger Talks", "Description: Two firms negotiate terms", "Core Metric: Cost", "", "Stakeholders:"]
  {
    assert "Scenario: " + "Merger Talks" == "Scenario: Merger Talks";
    assert "Description: " + "Two firms negotiate terms" == "Description: Two firms negotiate terms";
    assert "Core Metric: " + "Cost" == "Core Metric: Cost";
  }

  lemma MergerTalksLine(s: Stakeholder)
    requires s.name == "Ana" && s.role == "CFO" && s.priorities == "minimize cost" && s.constraints == ""
    ensures StakeholderLine(s) == "- Ana (CFO): minimize cost"
  {
    assert StakeholderHead(s) == "- Ana (CFO): minimize cost";
    assert StakeholderLine(s) == StakeholderHead(s) + "";
  }

  lemma MaximumRoundsFive()
    ensures "Maximum Rounds: " + IntToDecimal(5) == "Maximum Rounds: 5"
  {

  }

  /** The example's runtime format: five rounds and one actor without `limitations`. */
  lemma MergerTalksSetup(id: string)
    ensures ToGameSetup(MergerTalks(id)) ==
      GameSetup("Merger Talks", "Two firms negotiate terms", "Cost",
                [Actor(id, "Ana", "CFO", "minimize cost", None)], 5)
  {

  }

  // ---------------------------------------------------------------------------
  // The hand-maintained copies of the schema
  // ---------------------------------------------------------------------------

  /** The `enum` list of the `coreMetric` UI parameter. */
  const CopilotCoreMetricEnum: seq<string> :=
    ["Quality", "Speed", "Cost", "Innovation", "Reliability", "Security", "User Satisfaction", "Other"]

  /** The `enum` list of `coreMetric` in the JSON-Schema document. */
  const JsonSchemaCoreMetricEnum: seq<string> :=
    ["Quality", "Speed", "Cost", "Innovation", "Reliability", "Security", "User Satisfaction", "Other"]

  /** The UI parameter's enum list repeats the schema's labels, in the schema's order. */
  lemma CopilotEnumAgrees()
    ensures CopilotCoreMetricEnum == MetricLabels(CoreMetricOptions)
    ensures forall s :: s in CopilotCoreMetricEnum <==> ParseMetric(s).Some?
  {

  }

  /** The JSON-Schema document's enum list repeats the schema's labels, in the schema's order. */
  lemma JsonSchemaEnumAgrees()
    ensures JsonSchemaCoreMetricEnum == MetricLabels(CoreMetricOptions)
    ensures forall s :: s in JsonSchemaCoreMetricEnum <==> ParseMetric(s).Some?
  {

  }

  /** The numeric bounds written into the JSON-Schema document. */
  datatype JsonSchemaBounds = JsonSchemaBounds(
    titleMinLength: int,
    descriptionMinLength: int,
    stakeholdersMaxItems: int,
    nameMinLength: int,
    roleMinLength: int,
    prioritiesMinLength: int,
    maxRoundsMinimum: int,
    maxRoundsMaximum: int)

  const MinimalJsonSchemaBounds := JsonSchemaBounds(3, 10, 6, 2, 2, 5, 3, 10)

  /** The JSON-Schema document's bounds are the validation schema's bounds. */
  lemma JsonSchemaBoundsAgree()
    ensures MinimalJsonSchemaBounds ==
      JsonSchemaBounds(MinTitleLength, MinDescriptionLength, MaxStakeholders, MinNameLength,
                       MinRoleLength, MinPrioritiesLength, MinRounds, MaxRoundsLimit)
  {
  }
}
