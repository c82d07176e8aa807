/**
 * The two collaborators the webhook changes: the process-wide agent store
 * (configuration and activity log) and the outbound message transport.
 * Their implementations are not part of this model; these classes keep
 * exactly the state the webhook reads and writes.
 */
module Services {
  import opened Types

  /** The agent state: the current configuration and the log, newest entry first. */
  class Store {
    var config: AgentConfig
    var logs: seq<LogEntry>

    /** Records one log entry in front of the older ones. */
    method PushLog(entry: LogEntry)
      modifies this
      ensures logs == [entry] + old(logs)
      ensures config == old(config)
    {
      logs := [entry] + logs;
    }
  }

  /** The outbound transport, reduced to the sequence of sends it was asked for. */
  class Transport {
    var outbox: seq<Intent>

    /** Asks for one text message to be delivered: appends the intent. */
    method SendTextMessage(to: string, text: string)
      modifies this
      ensures outbox == old(outbox) + [Intent(to, text)]
    {
      outbox := outbox + [Intent(to, text)];
    }
  }
}
