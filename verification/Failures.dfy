/** Failure codes and the retry policy each of them carries. */
module Failures {
  datatype FailureCode =
    | AuthMaterialMissing | RefreshFailed | PrincipalMismatch | WorkspaceMismatch | StaleSession | RunnerHostUnavailable
    | ConcurrentSessionMutation | CliLoginPathBlocked | OutputSchemaValidationFailed | MalformedProposal
    | MalformedCodexEvent | CodexTransportTimeout | CodexProcessCrash | BudgetExceeded | ExecutionPolicyRejected
    | QueueMutationMismatch | DuplicateQueueDelivery | InvalidUserInput | DuplicateTriggerMismatch

  datatype RetryPolicy = Terminal | Backoff(seconds: nat)

  function PolicyOf(code: FailureCode): RetryPolicy {
    match code
    case RunnerHostUnavailable => Backoff(60)
    case RefreshFailed => Backoff(120)
    case StaleSession => Backoff(300)
    case OutputSchemaValidationFailed => Backoff(90)
    case CodexTransportTimeout => Backoff(60)
    case CodexProcessCrash => Backoff(60)
    case ConcurrentSessionMutation => Backoff(30)
    case _ => Terminal
  }

  function Name(code: FailureCode): string {
    match code
    case AuthMaterialMissing => "auth_material_missing"
    case RefreshFailed => "refresh_failed"
    case PrincipalMismatch => "principal_mismatch"
    case WorkspaceMismatch => "workspace_mismatch"
    case StaleSession => "stale_session"
    case RunnerHostUnavailable => "runner_host_unavailable"
    case ConcurrentSessionMutation => "concurrent_session_mutation"
    case CliLoginPathBlocked => "cli_login_path_blocked"
    case OutputSchemaValidationFailed => "output_schema_validation_failed"
    case MalformedProposal => "malformed_proposal"
    case MalformedCodexEvent => "malformed_codex_event"
    case CodexTransportTimeout => "codex_transport_timeout"
    case CodexProcessCrash => "codex_process_crash"
    case BudgetExceeded => "budget_exceeded"
    case ExecutionPolicyRejected => "execution_policy_rejected"
    case QueueMutationMismatch => "queue_mutation_mismatch"
    case DuplicateQueueDelivery => "duplicate_queue_delivery"
    case InvalidUserInput => "invalid_user_input"
    case DuplicateTriggerMismatch => "duplicate_trigger_mismatch"
  }
}
