// The shared run/step contract of the trace pipeline: the records the backend
// stores and broadcasts and the client caches and renders.
// Timestamps are opaque ISO-8601 strings; they are only ever compared as
// strings (code point by code point), which is how the backend sorts them.
module Types {

  datatype Option<T> = None | Some(value: T)

  datatype RunStatus = Running | Completed | Failed

  datatype SystemType = Mock | OpenClaw | Claude | Other

  datatype StepType = Llm | Tool | Plan | Final | Error

  datatype StepStatus = Running | Completed | Failed | Retrying

  /** Free-form input/output payloads; values are kept as opaque text. */
  type Payload = map<string, string>

  type Timestamp = string

  datatype RunMetadata = RunMetadata(userId: string, tags: seq<string>)

  datatype StepError = StepError(message: string, stack: Option<string>, code: Option<string>)

  datatype Run = Run(
    runId: string,
    createdAt: Timestamp,
    updatedAt: Timestamp,
    status: RunStatus,
    systemType: SystemType,
    rootStepId: Option<string>,
    metadata: RunMetadata)

  datatype Step = Step(
    stepId: string,
    runId: string,
    parentStepId: Option<string>,
    name: string,
    stepType: StepType,
    status: StepStatus,
    startedAt: Timestamp,
    endedAt: Option<Timestamp>,
    durationMs: int,
    tokensPrompt: int,
    tokensCompletion: int,
    costUsd: real,
    input: Payload,
    output: Payload,
    error: Option<StepError>)

  /** A parsed live-subscription frame. `Unrecognized` is a JSON value whose
      `type` tag is neither of the two the client knows. */
  datatype WsMessage =
    | StepUpdate(step: Step)
    | RunUpdate(run: Run)
    | Unrecognized(tag: string)

  /** Key projections used by the keyed collections. */
  function StepKey(s: Step): string { s.stepId }

  function RunKey(r: Run): string { r.runId }

  /** Wire spellings of the enumerations. */
  function StepTypeName(t: StepType): string
  {
    match t
    case Llm => "llm"
    case Tool => "tool"
    case Plan => "plan"
    case Final => "final"
    case Error => "error"
  }

  function StepStatusName(s: StepStatus): string
  {
    match s
    case Running => "running"
    case Completed => "completed"
    case Failed => "failed"
    case Retrying => "retrying"
  }

  function SystemTypeName(t: SystemType): string
  {
    match t
    case Mock => "mock"
    case OpenClaw => "openclaw"
    case Claude => "claude"
    case Other => "other"
  }

  function RunStatusName(s: RunStatus): string
  {
    match s
    case Running => "running"
    case Completed => "completed"
    case Failed => "failed"
  }

  /** Parses a step-type tag; `None` where the backend's enum conversion raises. */
  function ParseStepType(s: string): (r: Option<StepType>)
    ensures r.Some? <==> s in {"llm", "tool", "plan", "final", "error"}
    ensures r.Some? ==> StepTypeName(r.value) == s
  {
    if s == "llm" then Some(Llm)
    else if s == "tool" then Some(Tool)
    else if s == "plan" then Some(Plan)
    else if s == "final" then Some(Final)
    else if s == "error" then Some(Error)
    else None
  }

  lemma StepTypeNameRoundTrip(t: StepType)
    ensures ParseStepType(StepTypeName(t)) == Some(t)
  {
  }
}
