/**
 * The entities of the auto-reply agent: automation rules, the agent
 * configuration and the activity-log entries.
 */
module Types {
  import opened Wrappers

  /** How a rule's pattern is tested against an inbound message body. */
  datatype MatchType = Always | Keyword | Contains

  /** A configured condition/response pair. */
  datatype Rule = Rule(
    id: string,
    name: string,
    matchType: MatchType,
    pattern: string,
    response: string,
    active: bool)

  /** The agent's configuration: the ordered rule list and the fallback settings. */
  datatype AgentConfig = AgentConfig(
    rules: seq<Rule>,
    defaultResponse: string,
    aiEnabled: bool)

  datatype Direction = Incoming | Outgoing

  /** One entry of the activity log. */
  datatype LogEntry = LogEntry(
    id: string,
    direction: Direction,
    timestamp: string,
    contact: string,
    preview: string,
    ruleId: Option<string>)

  /** A decided (recipient, text) pair handed to the outbound transport. */
  datatype Intent = Intent(to: string, text: string)

  /** The rule matcher the webhook consults; its matching semantics are not part of this model. */
  type Evaluator = (seq<Rule>, string) -> Option<Rule>
}
