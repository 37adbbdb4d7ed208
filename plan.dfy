/**
 * The execution plan the LLM returns. Only the fields the agent reads are represented: the
 * optional error and suggestion, and the ordered operations with their JSON params. The plan's
 * own schema checks (`Plan::validate`, `Plan::is_error`) are not part of this model; they are
 * passed to the operations that use them.
 */
module PlanSchema {
  import opened Wrappers
  import opened JsonValue

  datatype PlanOperation = PlanOperation(op: string, params: Json)

  datatype Plan = Plan(operations: seq<PlanOperation>, error: Option<string>, suggestion: Option<string>)
}
