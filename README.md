# WhatsApp automation agent: webhook and rule editor

This project models two parts of a small WhatsApp Business automation agent.

- **The webhook route.** The GET handler answers Meta's subscription handshake. The POST handler receives a WhatsApp Cloud API notification. It walks `entry[].changes[].value.messages[]`, skips every message whose type is not `text`, and logs each text message as an incoming activity entry. It then asks the rule evaluator for a matching automation rule and sends at most one reply to the sender. The reply is one of three: the matched rule's response, the default response with the AI note appended (AI on, no rule matched), or the default response (when it is non-empty). A body that fails to parse as JSON gets a 500 answer `{message: "Webhook error", detail}`. So does a JSON `null` body, and any other shape that makes the outer loops throw. A parsed notification of the expected shape gets `{status: "received"}`, however many of its messages were answered.
- **The automation studio's editor state.** This is the configuration being edited, plus the dirty flag, the in-flight flag, the status message and the validation issues. The edits are a configuration merge, a rule update (map), a rule removal (filter) and a rule addition (append). A save either replaces the configuration with the server's copy or reports why it failed.

Files:

- `wrappers.dfy`: `Option`; its `GetOr` is JavaScript's `??`.
- `types.dfy`: rules, configuration, log entries and send intents.
- `services.dfy`: the parts of the in-memory store and the WhatsApp transport that the webhook touches. The store's `pushLog` puts the entry in front (newest first). The transport records each send in an outbox.
- `webhook.dfy`:
  - the GET decision `Verify`;
  - the payload shape with every optional level;
  - the per-message handler `HandleMessage`;
  - the three nested loops `Post` → `ProcessEntry` → `ProcessChange`.

  Each loop is proved against the specification functions `LogsFor` (the log entries it adds) and `IntentsFor` (the sends it makes) over the flattened message list `InboundOf(payload)`.
- `webhook_properties.dfy`: what those specification functions promise — contact lookup, one log entry per text message, bounded previews, at most one send per text message to its sender, non-text messages ignored, reply resolution, and empty payloads.
- `editor.dfy`: the spread merges and the rule-list transforms as functions, with their algebra: composition, idempotence, order preservation and active counts.
- `studio.dfy`: the studio's state as a class. Its methods update the state in place. A ghost field `stored`, the configuration last known to be on the server, carries the invariant `Valid()`: "not dirty ⇒ the configuration shown is the stored one". Every method keeps it, and `Label` uses it: a footer reading "All changes saved" with no status message means the configuration shown is the stored one. `persist` is split at its `await` into `BeginPersist` and `CompletePersist`, because edits can happen while a save is pending. A successful save then overwrites those edits.

The rule evaluator, the verify token, fresh UUIDs and clock readings come in as parameters, because their code is not part of this model:

- `evaluate` is a total function from rules and text to an optional rule;
- `verifyToken` is the configured token;
- `stamp(k)` gives the id and timestamp of the log entry for the k-th message of the payload;
- `newId` is the id of an added rule.

The route logs only the incoming message (`app/api/webhook/route.ts:37-43`); the route itself does not log the reply it sends. `LogEntriesAreIncoming` proves that every log entry the webhook adds is incoming and carries no rule id.

## Model

| member | source | states |
|---|---|---|
| Webhook.EntriesOf | app/api/webhook/route.ts:23 | the entries of a payload, empty when `entry` is absent |
| Webhook.ChangesOf | app/api/webhook/route.ts:26 | the changes of an entry, empty when `changes` is absent |
| Webhook.MessagesOf | app/api/webhook/route.ts:28 | the messages of a change, empty when `value` or `value.messages` is absent |
| Webhook.ContactsOf | app/api/webhook/route.ts:29 | the contacts of a change, empty when `value` or `value.contacts` is absent |
| Webhook.FlattenChanges | app/api/webhook/route.ts:27-31 | the messages of a list of changes in payload order, each paired with its own change's contacts |
| Webhook.Flatten | app/api/webhook/route.ts:25-31 | the messages of a list of entries in payload order, entry by entry and change by change |
| Webhook.InboundOf | app/api/webhook/route.ts:23-31 | the normalised message list of a payload, with every missing level read as empty |
| Webhook.IsText | app/api/webhook/route.ts:32 | a message is handled exactly when its `type` is `"text"` |
| Webhook.FindContact | app/api/webhook/route.ts:33 | `contacts.find`: a contact it returns is in the list and carries the sender's `wa_id` |
| Webhook.ContactName | app/api/webhook/route.ts:33-34 | the profile name of the first contact whose `wa_id` is the sender, else the raw sender id |
| Webhook.BodyOf | app/api/webhook/route.ts:35 | the text body of a message, `""` when `text` or `text.body` is absent |
| Webhook.IncomingEntry | app/api/webhook/route.ts:37-43 | the incoming log entry of a text message: its stamp, direction incoming, the contact name, the body's preview and no rule id |
| Webhook.LogFor | app/api/webhook/route.ts:32-43 | one incoming entry for a text message, nothing for any other message |
| Webhook.LogsFor | app/api/webhook/route.ts:25-43 | the entries a message list adds to the log, the latest message's entry first, message k stamped with stamp k |
| Webhook.IntentsFor | app/api/webhook/route.ts:25-58 | the sends a message list causes, in payload order |
| Webhook.Verify | app/api/webhook/route.ts:7-18 | the answer is 200 exactly when the mode is `subscribe`, the token is a non-empty string and it equals the configured token; a 200 carries the challenge (empty when absent); every other request gets 403 `{message: "Verification failed"}` |
| Webhook.Preview | app/api/webhook/route.ts:42 | the preview is the first min(length, 120) characters of the body, so it is a prefix of the body and at most 120 long |
| Webhook.ReplyFor | app/api/webhook/route.ts:46-58 | a matched rule's non-empty response is sent whatever the AI flag; with no match and AI on, the default response plus the AI note is sent (never empty); with no match and AI off, the default response is sent only when non-empty; whatever is sent is non-empty |
| Webhook.IntentFor | app/api/webhook/route.ts:32-58 | a message produces at most one send, and produces one exactly when it is a text message whose resolved reply is present; that send answers `message.from` with the resolved reply, which is non-empty |
| Services.Store.PushLog | app/api/webhook/route.ts:37-43 | the entry goes in front of the log and the configuration is unchanged |
| Services.Transport.SendTextMessage | app/api/webhook/route.ts:52-57 | the requested send is appended to the outbox |
| Webhook.HandleMessage | app/api/webhook/route.ts:31-59 | a non-text message changes nothing; a text message puts exactly its incoming entry in front of the log, reads the configuration after logging, and adds exactly the reply intent of that configuration to the outbox; the configuration is unchanged |
| Webhook.ProcessChange | app/api/webhook/route.ts:27-31 | handling every message of one change, in order, adds `LogsFor` and `IntentsFor` of the change's (message, contacts) pairs, with missing `value`, `messages` or `contacts` read as empty |
| Webhook.ProcessEntry | app/api/webhook/route.ts:25-27 | handling every change of one entry (missing `changes` read as empty) adds the logs and sends of the flattened message list of that entry |
| Webhook.Post | app/api/webhook/route.ts:20-73 | an unparsable body answers 500 `{message: "Webhook error", detail}` and changes nothing; otherwise the answer is 200 `{status: "received"}`, the log gains exactly `LogsFor(InboundOf(p))` in front, and the outbox gains exactly `IntentsFor(InboundOf(p))` evaluated against the configuration as it was |
| Webhook.LogsForConcat | app/api/webhook/route.ts:25-31 | logging a concatenated message list is logging the second part, with stamps shifted by the length of the first, in front of logging the first part |
| Webhook.IntentsForConcat | app/api/webhook/route.ts:25-31 | the sends of a concatenated message list are the sends of the first part followed by those of the second |
| WebhookProperties.FindContactFirstMatch | app/api/webhook/route.ts:33 | the contact lookup returns the first contact whose `wa_id` equals the sender |
| WebhookProperties.FindContactNoMatch | app/api/webhook/route.ts:33 | the contact lookup returns nothing when no contact's `wa_id` equals the sender |
| WebhookProperties.ContactNameOfFirstMatch | app/api/webhook/route.ts:33-34 | the logged contact name is the profile name of the first matching contact, or the raw sender id when that contact has no profile name |
| WebhookProperties.ContactNameOfUnknownSender | app/api/webhook/route.ts:33-34 | with no matching contact, the logged contact name is the raw sender id |
| WebhookProperties.OneLogEntryPerTextMessage | app/api/webhook/route.ts:32-43 | a payload adds exactly as many log entries as it has text messages |
| WebhookProperties.LogEntriesAreIncoming | app/api/webhook/route.ts:37-43 | every added log entry is incoming and has no rule id; each one is the entry of some text message k, with the id and timestamp of stamp k |
| WebhookProperties.PreviewsAreBounded | app/api/webhook/route.ts:35-42 | every added preview is at most 120 characters long and is a prefix of some text message's body |
| WebhookProperties.AtMostOneSendPerTextMessage | app/api/webhook/route.ts:49-58 | a payload makes at most as many sends as it has text messages |
| WebhookProperties.SendsGoToSenders | app/api/webhook/route.ts:52-57 | every send has non-empty text and is addressed to the sender of some text message of the payload, carrying that message's resolved reply |
| WebhookProperties.TextMessageWithReplyIsAnswered | app/api/webhook/route.ts:46-58 | a text message whose resolved reply is non-empty is answered: the send of that reply to its sender is among the payload's sends |
| WebhookProperties.NonTextMessageIsIgnored | app/api/webhook/route.ts:32 | inserting a non-text message anywhere changes neither the sends nor the log entries of the messages before it |
| WebhookProperties.ReplyIsResolvedTextUnlessEmpty | app/api/webhook/route.ts:46-58 | the reply agrees with a separate resolver (rule response, else default plus AI note, else default) with empty texts suppressed; with no match and AI on, a reply is always sent |
| WebhookProperties.EmptyPayloadDoesNothing | app/api/webhook/route.ts:23 | a payload without `entry`, or with an empty one, yields no messages, no log entries and no sends |
| WebhookProperties.MissingLevelsAreEmpty | app/api/webhook/route.ts:26-28 | entries whose changes all lack `value` or `messages` yield no messages |
| WebhookProperties.SingleMessagePayload | app/api/webhook/route.ts:23-31 | a payload of one entry with one change carrying one message is processed as exactly that message, paired with its change's contacts |
| WebhookProperties.UnknownSenderGetsDefault | app/api/webhook/route.ts:23-58 | one text message from an unknown sender, with no rule matching and AI off, logs one incoming entry named after the raw sender id and sends the default response exactly when it is non-empty |
| Editor.MergeRule | app/components/AutomationStudio.tsx:51 | `{ ...rule, ...partial }`: each field from the partial rule when present, from the rule otherwise |
| Editor.MergeConfig | app/components/AutomationStudio.tsx:44 | `{ ...prev, ...partial }`: each configuration field from the partial configuration when present, kept otherwise |
| Editor.EmptyRule | app/components/AutomationStudio.tsx:7-14 | the rule `addRule` appends: name "New rule", match type `contains`, pattern "hello", response "Hi! Thanks for your message.", active, under the given id |
| Editor.MergeRuleFields | app/components/AutomationStudio.tsx:51 | a merged rule takes each field from the partial rule when present, and from the rule otherwise |
| Editor.MergeRuleComposes | app/components/AutomationStudio.tsx:51 | two merges are one merge of the combined patch, the later fields winning; merging the same patch twice is merging it once; an empty patch changes nothing |
| Editor.MergeConfigFields | app/components/AutomationStudio.tsx:43-44 | the configuration merge takes each field from the partial configuration when present, keeps it otherwise, and is idempotent |
| Editor.UpdateRules | app/components/AutomationStudio.tsx:49-52 | the update keeps the length; each rule with the id is merged with the patch, and every other rule is left as it was at its position |
| Editor.UpdateAbsentIdIsNoop | app/components/AutomationStudio.tsx:51 | updating an id no rule carries leaves the rules unchanged |
| Editor.UpdateKeepsActiveCount | app/components/AutomationStudio.tsx:41-51 | an update that does not set `active` keeps the active-rule count |
| Editor.RemoveRules | app/components/AutomationStudio.tsx:57-60 | a rule survives removal exactly when it was there and does not carry the id; the length drops by the number of rules carrying the id; an absent id leaves the list unchanged |
| Editor.RemovePresentShrinksByOne | app/components/AutomationStudio.tsx:59 | with unique ids, removing a present id shrinks the list by exactly one |
| Editor.RemoveKeepsOrder | app/components/AutomationStudio.tsx:59 | removal acts on each part of a list separately, so the relative order of the kept rules is preserved |
| Editor.RemoveIsIdempotent | app/components/AutomationStudio.tsx:59 | removing the same id twice is removing it once |
| Editor.ActiveRules | app/components/AutomationStudio.tsx:41 | a rule is listed as active exactly when it is in the list and active |
| Editor.ActiveCount | app/components/AutomationStudio.tsx:41 | the active count is at most the number of rules, and it is zero exactly when no rule is active |
| Editor.CountActive | app/components/AutomationStudio.tsx:41 | the number of active rules, counted one rule at a time |
| Editor.ActiveCountIsCount | app/components/AutomationStudio.tsx:41 | the active-rule figure equals the number of active rules |
| Editor.NoActiveRules | app/components/AutomationStudio.tsx:41 | the list of active rules is empty exactly when no rule in the list is active |
| Editor.ActiveRulesConcat | app/components/AutomationStudio.tsx:41 | the active filter acts on each part of a list separately |
| Editor.AddRuleAppendsDefault | app/components/AutomationStudio.tsx:64-68 | removing the id of a rule just added under a fresh id gives back the rules as they were; adding a rule raises the active count by one |
| Editor.RemoveNeverAddsActive | app/components/AutomationStudio.tsx:59 | removing rules never raises the active count |
| Editor.StatusLabel | app/components/AutomationStudio.tsx:221 | a non-empty status message is shown as is; otherwise the label is "Unsaved changes" while dirty and "All changes saved" when clean; the label is never empty |
| Studio.AutomationStudio.constructor | app/components/AutomationStudio.tsx:26-30 | the studio starts with the initial configuration, clean, not saving, with no status and no issues |
| Studio.AutomationStudio.ActiveRuleCount | app/components/AutomationStudio.tsx:144 | the header count is at most the number of rules |
| Studio.AutomationStudio.Label | app/components/AutomationStudio.tsx:221 | the footer label is never empty; with no status message (absent or empty), it reads "All changes saved" exactly when nothing is unsaved, and then the configuration shown is the one last stored on the server |
| Studio.AutomationStudio.HandleChange | app/components/AutomationStudio.tsx:43-46 | the configuration becomes the merge of the partial configuration and the state is dirty; nothing else changes |
| Studio.AutomationStudio.UpdateRule | app/components/AutomationStudio.tsx:48-54 | only the rules are replaced, by the update of the given id; the state is dirty |
| Studio.AutomationStudio.RemoveRule | app/components/AutomationStudio.tsx:56-62 | only the rules are replaced, by the removal of the given id; the state is dirty |
| Studio.AutomationStudio.AddRule | app/components/AutomationStudio.tsx:64-70 | only the rules change: the default rule with the new id is appended; the state is dirty |
| Studio.AutomationStudio.BeginPersist | app/components/AutomationStudio.tsx:72-74 | a save is in flight and the issues are cleared; the configuration, dirty flag and status are kept |
| Studio.AutomationStudio.CompletePersist | app/components/AutomationStudio.tsx:75-104 | on success, the server's configuration replaces the edited one (including edits made while pending), the state is clean and the status reads "Configuration saved"; on a server error, the edits stay, the status is the server's message or "Failed to save configuration", and there are no issues; on a throw, the edits stay, the status becomes the error's message when there is one, and the issues are those listed; saving ends in every case |
| Studio.AutomationStudio.Persist | app/components/AutomationStudio.tsx:72-105 | a save with no edit while pending ends in the same three states, with the issues of the previous save cleared |

## Left out

- evaluateRules: its matching semantics live in `lib/whatsapp.ts`, which is not part of this model. The webhook takes the evaluator as a total function parameter, and every property holds for any evaluator.
- getVerifyToken and sendTextMessage's HTTP call to the Graph API: also in `lib/whatsapp.ts`. The token is a parameter; a send is an intent appended to an outbox. Anything `sendTextMessage` itself writes to the activity log is not modelled. Delivery failures, and the rejections raised inside `forEach(async …)` that nobody awaits, are not modelled.
- The store (`lib/store.ts`): only what the webhook touches is modelled. `pushLog` is a prepend, with no length cap, and `getAgentState` is a read of the configuration.
- crypto.randomUUID and `new Date().toISOString()`: their values come from the `stamp` oracle indexed by a message's position in the payload. The id of `addRule`'s new rule is the `newId` parameter. Uniqueness of the ids is not modelled.
- Webhook.Post: `messages.forEach(async …)` is modelled as processing the messages one after another, in payload order. Each callback runs synchronously up to its first `await`, so logs and send calls happen in that order. Sends that settle after the handler has answered are not distinguished.
- Webhook.Post: JSON parsing is reduced to "parsed into the payload shape" or "malformed, with an error message". Parsed bodies that make the outer handler throw a TypeError are not modelled, so their 500 answers are not covered: a JSON `null` body (`body.entry`, line 23), a non-iterable `entry` or `changes` (lines 25 and 27), a null entry or change (lines 26 and 28), and a `messages` value that has no `forEach` (line 31). A thrown value that is not an `Error` (detail `unknown`) is not modelled either.
- Webhook.HandleMessage: a throw inside the `forEach(async …)` callback only rejects a promise that nobody awaits. The answer stays 200 and only that message is skipped, with no log entry and no send. This happens for a null message (line 32), a `contacts` value that has no `find` (line 33) and a `text.body` that is not a string (line 42). The model's message shape cannot express these inputs, so this behaviour is not modelled.
- Webhook.Message: `message.from` is always present. An absent `from` (`undefined`) is not modelled.
- Webhook.Preview: `slice(0, 120)` counts UTF-16 code units; the model counts Dafny characters.
- Editor.RulePatch and Editor.ConfigPatch: a key present with the value `undefined` is not distinguished from an absent key.
- Studio.AutomationStudio.CompletePersist: the schema check of `lib/validation.ts` (zod), the PUT to `/api/config` and the mapping of zod issues to `{field, message}` are not part of this model. Their result arrives as the `SaveOutcome`: a validation failure is `Threw` with the issues listed.
- Studio.AutomationStudio: the React effects are not modelled — the 4-second timer that clears the status, and the effect that resets the configuration when the `initialConfig` prop changes. The JSX rendering beyond the rules-header count and the footer label is not modelled either.
- The config and send API routes, and the log, manual-send, overview, page and layout components, are outside the modelled core.
