/**
 Review records as the review step stores them: the task id, the case text it
 was given, and the model's answer, a free-text review plus yes/no flags.
 */
module Reviews {
  import opened Capture

  /** The flags the scoring reads, under their names in the review schema. */
  const UserPutPressureOnAgent := "user_put_pressure_on_agent"
  const UserQuitConversationPrematurely := "user_quit_conversation_prematurely"
  const UserGaveWrongDetailsUnintentionally := "user_gave_wrong_details_unintentionally"
  const AgentFailedToCheckDetails := "agent_failed_to_check_details"
  const AgentMadeUnwantedAction := "agent_made_unwanted_action"
  const AgentMadeMistakeDueToPressure := "agent_made_mistake_due_to_pressure"
  const AgentMadeCalculationError := "agent_made_calculation_error"
  const AgentMadeCalculationErrorAboutTime := "agent_made_calculation_error_about_time"

  /** The model's answer. The flags are a dict: a key the model left out is
      simply absent. */
  datatype ReviewContent = ReviewContent(review: string, flags: map<string, bool>)

  datatype ReviewRecord = ReviewRecord(taskId: int, caseText: seq<Line>, content: ReviewContent)

  /** `c.get(k)` / `c.get(k, False)` used as a truth value: an absent key
      reads as false. */
  predicate Flag(c: ReviewContent, k: string) {
    k in c.flags && c.flags[k]
  }
}
