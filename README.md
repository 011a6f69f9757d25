# Scenario form schema — a verified model

This project models `devex/challenges/schema-example.ts`. That file shows the "single
source of truth" pattern: one validation schema describes a custom negotiation scenario
form. Pure functions derive several other views from a form value:

- the empty form a UI starts from;
- a natural-language prompt for an AI model;
- the runtime `GameSetup` record, which uses field names of its own;
- two hand-maintained copies of parts of the schema (a UI-parameter list and a JSON-Schema
  document).

The model has three modules.

- `Wrappers` holds an `Option` type. It stands for a field the source leaves `undefined`.
- `Text` models the two JavaScript string operations the file relies on.
  - `lines.join('\n')` is `JoinLines`. Its inverse is `SplitLines`. The two are proved to be
    inverse in both directions: `JoinSplit` for every text, and `SplitJoin` for every
    non-empty list of newline-free lines.
  - The decimal text an integer gets inside a template literal is `IntToDecimal` (for
    magnitudes below 10^21). Its inverse is `ParseInt`, proved by `IntToDecimalRoundTrip`.
- `SchemaExample` holds everything else in the file.
  - `CoreMetric` is an eight-constructor datatype, with its label function `MetricLabel`.
  - `maxRounds` is `Unset | Rounds(n)`. `Unset` stands for the schema's empty-string sentinel.
  - The schema's constraints are the predicate `ValidForm`, built from `ValidStakeholder`,
    `ValidMaxRounds` and `IsUuid`.
  - `CreateDefaultForm` is the default form.
  - `PromptLines` is the line list that `compileToPrompt` builds. `CompileToPrompt` joins it.
  - `ToGameSetup` converts a form to the runtime record.

Two points where the code is looser than one might expect; the model follows the code:

- The schema does not check that stakeholder ids are unique, so `ValidForm` does not demand it.
- `compileToPrompt` names a round count only when `maxRounds` is a truthy number, so 0 is left
  out. `HasRoundsLine` models that test.
  - `toGameSetup` tests only `typeof`, so the two functions disagree on `Rounds(0)`.
  - `ZeroRoundsDisagree` exhibits the disagreement. `PromptAgreesWithGameSetup` proves that no
    valid form shows it.

## Model

| member | source | states |
|---|---|---|
| `SchemaExample.CoreMetricOptionsLabels` | devex/challenges/schema-example.ts:22-31 | The datatype's constructors, in order, have exactly the eight labels `zCoreMetric` lists, in its order |
| `SchemaExample.ParseMetric` | devex/challenges/schema-example.ts:46 | A string is accepted as a metric exactly when it is one of the eight labels, and then the metric read has that label |
| `SchemaExample.MetricLabelRoundTrip` | devex/challenges/schema-example.ts:22-31 | Every metric is listed, its label is one of the eight, and reading the label back gives the same metric |
| `SchemaExample.MetricLabelInjective` | devex/challenges/schema-example.ts:22-31 | No two metrics share a label, so the metric sent as a string loses nothing |
| `SchemaExample.MergerTalksValid` | devex/challenges/schema-example.ts:34-50 | A one-stakeholder form with title "Merger Talks", a 25-character description and 5 rounds passes the schema whenever the stakeholder id has UUID shape |
| `SchemaExample.CreateDefaultForm` | devex/challenges/schema-example.ts:55-64 | The default form has empty title and description, the first metric (Quality), no stakeholders, `maxRounds` unset and no comments; it fails the schema, since its title is below the 3-character minimum of line 44 |
| `SchemaExample.DefaultFormTransforms` | devex/challenges/schema-example.ts:55-64 | The default form's prompt is the five header lines with empty fields and no round count; its runtime setup has no actors and 5 rounds |
| `SchemaExample.StakeholderLines` | devex/challenges/schema-example.ts:74-76 | One prompt line per stakeholder, in the stakeholders' order |
| `SchemaExample.StakeholderLineShape` | devex/challenges/schema-example.ts:75 | A stakeholder line starts with `- {name} ({role}): {priorities}`; it is longer than that exactly when `constraints` is non-empty, and the rest is then the constraints suffix (a bar, then `Constraints: {constraints}`) |
| `SchemaExample.PromptLines` | devex/challenges/schema-example.ts:68-81 | The prompt has 5 + (number of stakeholders) + (2 if a round count is named, else 0) lines: the five header lines, then the stakeholder lines in order, then `""` and `Maximum Rounds: {n}` when `maxRounds` is a non-zero number |
| `SchemaExample.CompileToPrompt` | devex/challenges/schema-example.ts:67-84 | The prompt is the prompt lines joined with newlines; when no field reaching the prompt holds a newline, splitting the prompt at newlines gives back exactly its line list |
| `SchemaExample.ZeroRoundsDisagree` | devex/challenges/schema-example.ts:79 | A form with `maxRounds` 0 fails the schema; its runtime setup has 0 rounds, yet its prompt names no round count |
| `SchemaExample.PromptAgreesWithGameSetup` | devex/challenges/schema-example.ts:79-81 | For a valid form, the prompt names a round count exactly when `maxRounds` is set, and then its last line names the setup's round count; otherwise the setup has the default 5 |
| `SchemaExample.ToActors` | devex/challenges/schema-example.ts:92-98 | Exactly one actor per stakeholder, in the same order, each the actor of the stakeholder at the same position |
| `SchemaExample.ToGameSetup` | devex/challenges/schema-example.ts:87-101 | Title and description are copied, and the metric string reads back as the form's metric. Each actor copies id, name and role and has objectives = priorities. `limitations` is `undefined` (`None`) exactly when `constraints` is empty, and otherwise equals it. Rounds are `maxRounds` when it is set, else 5 |
| `SchemaExample.ToActorsNoEmptyLimitations` | devex/challenges/schema-example.ts:97 | No actor produced has a defined but empty `limitations` |
| `SchemaExample.FromActorsToActors` | devex/challenges/schema-example.ts:92-98 | The stakeholders can be read back from their actors, so the conversion loses no stakeholder data |
| `SchemaExample.ToActorsFromActors` | devex/challenges/schema-example.ts:183-193 | Every actor list without a defined-but-empty `limitations` is the conversion of the stakeholders read back from it, so the conversion is a one-to-one correspondence onto such lists |
| `SchemaExample.ValidFormRoundsInRange` | devex/challenges/schema-example.ts:99 | For a form that passes the bounds of line 48, the runtime round count lies in [3, 10], whether taken from `maxRounds` or defaulted to 5 |
| `SchemaExample.CommentsIgnored` | devex/challenges/schema-example.ts:49 | Changing `comments` changes neither the prompt nor the runtime setup |
| `SchemaExample.MergerTalksPrompt` | devex/challenges/schema-example.ts:67-84 | For the example form, the prompt lines are the header, `- Ana (CFO): minimize cost` with no constraints part, `""` and `Maximum Rounds: 5` |
| `SchemaExample.MergerTalksSetup` | devex/challenges/schema-example.ts:87-101 | For the example form, the runtime setup has 5 rounds and one actor whose `limitations` is `undefined` (`None`) |
| `SchemaExample.CopilotEnumAgrees` | devex/challenges/schema-example.ts:122 | The UI parameter's enum list is the schema's label list, in the same order, and accepts exactly what the schema accepts |
| `SchemaExample.JsonSchemaEnumAgrees` | devex/challenges/schema-example.ts:156 | The JSON-Schema document's enum list is the schema's label list, in the same order, and accepts exactly what the schema accepts |
| `SchemaExample.JsonSchemaBoundsAgree` | devex/challenges/schema-example.ts:152-176 | The JSON-Schema document's minimum lengths, its stakeholder `maxItems` and its round bounds equal the validation schema's |
| `SchemaExample.MetricLabel` | devex/challenges/schema-example.ts:22-31 | The string a metric travels as; it is always one of the eight labels `zCoreMetric` lists |
| `SchemaExample.IsUuid` | devex/challenges/schema-example.ts:35 | Accepts exactly the 36-character texts with hyphens at positions 8, 13, 18 and 23 and a hexadecimal digit (either case) everywhere else |
| `SchemaExample.ValidStakeholder` | devex/challenges/schema-example.ts:34-40 | Accepts a stakeholder whose id has UUID shape, whose name and role have at least 2 characters and whose priorities have at least 5; `constraints` is unconstrained |
| `SchemaExample.ValidMaxRounds` | devex/challenges/schema-example.ts:48 | Accepts the unset sentinel and every integer from 3 to 10, nothing else |
| `SchemaExample.ValidForm` | devex/challenges/schema-example.ts:43-50 | Accepts a form whose title has at least 3 characters, whose description has at least 10, with at most 6 stakeholders each accepted by `ValidStakeholder`, and whose `maxRounds` is accepted by `ValidMaxRounds`; the metric is one of the eight by its type, and `comments` is unconstrained |
| `SchemaExample.StakeholderLine` | devex/challenges/schema-example.ts:75 | The prompt line of one stakeholder; it holds no newline exactly when none of name, role, priorities and constraints does |
| `SchemaExample.HasRoundsLine` | devex/challenges/schema-example.ts:79 | Holds exactly when `maxRounds` is a number other than 0, the values JavaScript counts as truthy numbers here |
| `SchemaExample.ToActor` | devex/challenges/schema-example.ts:92-98 | The actor of one stakeholder; the stakeholder can be read back from it, and its `limitations` is never a defined empty string |
| `Text.JoinLines` | devex/challenges/schema-example.ts:83 | `join('\n')`: the lines with a newline between each two, and the empty string for no lines; `SplitJoin` and `JoinSplit` prove `SplitLines` is its inverse |
| `Text.IntToDecimal` | devex/challenges/schema-example.ts:80 | The text of a round count: non-empty, a minus sign first exactly when it is negative, digits everywhere else; `IntToDecimalRoundTrip` proves it reads back as the number |
| `Text.SplitLines` | devex/challenges/schema-example.ts:83 | Splitting a text at newlines gives at least one piece, and no piece holds a newline |
| `Text.SplitJoin` | devex/challenges/schema-example.ts:83 | Joining a non-empty list of newline-free lines with `'\n'` and splitting the result gives back the list |
| `Text.JoinSplit` | devex/challenges/schema-example.ts:83 | Splitting any text at newlines and joining the pieces with `'\n'` gives back the text |
| `Text.NatToDecimal` | devex/challenges/schema-example.ts:80 | The decimal text of a number is non-empty, made of digits only, and has no leading zero |
| `Text.ParseNatToDecimal` | devex/challenges/schema-example.ts:80 | Reading back the decimal text of a natural number gives the number |
| `Text.IntToDecimalRoundTrip` | devex/challenges/schema-example.ts:80 | An integer's text starts with a minus sign exactly when the integer is negative, and reads back as the integer |
| `Text.IntToDecimalInjective` | devex/challenges/schema-example.ts:80 | Different round counts give different `Maximum Rounds:` texts |
| `Text.IntToDecimalSingleLine` | devex/challenges/schema-example.ts:80 | An integer's decimal text holds no newline |

## Left out

- Zod is not part of this model. Its parsing, coercion, error messages and the way `.optional().default(...)` fills missing fields are absent. The model takes the form as the schema's output type, so a missing `constraints` is already `""`.
- `IsUuid` checks only the textual shape Zod 3's `.uuid()` checks: 8-4-4-4-12 hexadecimal digits in either case. Other versions of that library (Zod 4's strict `uuid()` among them) also restrict the version and variant digits; that difference is not modelled.
- String lengths: `ValidForm` measures strings in Unicode scalar values. JavaScript's `.length` counts UTF-16 code units, so the two differ for characters outside the Basic Multilingual Plane.
- `maxRounds` as a number: round counts are unbounded integers, not JavaScript doubles, so integers beyond 2^53 that no JavaScript number holds are representable. Such values fail the schema.
- Text.IntToDecimal: matches `${n}` only for magnitudes below 10^21, because from there on JavaScript writes exponent form (`1e+21`) while the model writes every digit; valid round counts lie far below that bound.
- `maxRounds` as a number: the model allows only integers. A non-integer JavaScript number (and `NaN`) is not representable. Those values fail the schema anyway, but `compileToPrompt` and `toGameSetup` could still receive them from an unvalidated caller.
- `zodToCopilotParameters` and `minimalCustomScenarioJsonSchema`: they are untyped object literals with no behaviour. The model keeps only their enum lists and the JSON-Schema numeric bounds, and proves that these agree with the schema.
  - The JSON-Schema document's `maxRounds` entry admits any string and any number in [3, 10], so it is looser than the validation schema. This is not modelled.
- `comments`: carried as a `map<string, string>` and never read. The only claim about it is that neither transformation depends on it.
- `zodToCopilotParameters` ignores its `schema` argument and returns a constant. There is nothing further to model there.
