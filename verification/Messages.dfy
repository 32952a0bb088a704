/** The user-facing messages a failed row can carry, and the outcomes a job can log. */
module Messages {
  datatype Message =
    | SweepMessage                    // interrupted: shutdown, or found stuck
    | BusyMessage                     // rejected at submit, or timed out waiting for a slot
    | TimeoutMessage                  // the run deadline fired
    | EnqueueFailedMessage            // submit refused the job while shutting down
    | ErrorMessage(error: KnownError) // the job itself failed

  datatype KnownError =
    | AIGenerationFailed
    | AIParseFailed
    | StorageDownload
    | NoMediaForSession
    | InvalidMedia

  datatype Outcome =
    | RejectedBusy
    | WaitTimeout
    | CancelledWaiting
    | Succeeded
    | Failed
    | RunTimeout
    | CancelledRunning

  /** The exception class a task caught: one with a message of its own, or any other. */
  datatype TaskError = Known(error: KnownError) | Other

  function FriendlyMessage(e: TaskError): (m: Message)
    ensures m != BusyMessage && m != TimeoutMessage && m != EnqueueFailedMessage
  {
    match e
    case Known(error) => ErrorMessage(error)
    case Other => SweepMessage
  }

  /** Why a running job was cancelled, judged when its handler runs. */
  function CancellationMessage(shuttingDown: bool): Message {
    if shuttingDown then SweepMessage else TimeoutMessage
  }
}
