/** The value types that requests, routers and providers exchange. */
module Schemas {
  import opened Common

  datatype Backend = Google | Nvidia | OpenRouter | Groq

  datatype TaskGroup = GENERAL | CODING_REASONING | CREATIVE | MULTIMODAL

  /** The groups in their declaration order, which is the order they are offered in. */
  const TASK_GROUPS: seq<TaskGroup> := [GENERAL, CODING_REASONING, CREATIVE, MULTIMODAL]

  datatype RouterAction = ANSWER | RETRY | CLARIFY | STOP

  datatype FailureScope = BackendTransient | ModelSpecific | NonTransient

  /** A router's verdict, before or after its schema has been checked. */
  datatype RouterDecision = RouterDecision(action: RouterAction, taskGroup: Option<TaskGroup>)
  {
    /** The schema: exactly an ANSWER names a task group. */
    predicate WellFormed() {
      action == ANSWER <==> taskGroup.Some?
    }
  }

  /** The part of a registry record that routing reads. */
  datatype ProviderConfig = ProviderConfig(
    id: string,
    enabled: bool,
    backend: Backend,
    taskGroup: TaskGroup,
    priority: nat,
    acceptsImages: bool,
    regions: seq<string>,
    classifications: seq<string>,
    cost: real,
    latency: real,
    quality: real,
    health: real,
    capacity: real)

  datatype ChatRequest = ChatRequest(conversationId: string, message: string, hasImage: bool, retry: bool)

  datatype RoutingContext = RoutingContext(policyId: Option<string>, dataClassification: string, region: Option<string>)
  {
    /** An absent or empty region constrains nothing. */
    predicate HasRegion() {
      region.Some? && region.value != ""
    }
  }
}
