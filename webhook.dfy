/**
 * The webhook endpoint of the WhatsApp auto-reply agent.
 *
 * GET is the provider's subscription handshake. POST receives a provider
 * callback, unpacks its nested entries, changes, messages and contacts
 * (every level defaulting to empty), and for each text message records an
 * incoming log entry and decides the automatic reply, which is handed to
 * the outbound transport.
 */
module Webhook {
  import opened Wrappers
  import opened Types
  import opened Services

  // ---------------------------------------------------------------------
  // Responses
  // ---------------------------------------------------------------------

  datatype ResponseBody =
    | Text(text: string)                              // a plain-text body
    | JsonMessage(message: string)                    // {message}
    | JsonStatus(status: string)                      // {status}
    | JsonError(message: string, detail: string)      // {message, detail}

  datatype Response = Response(status: nat, body: ResponseBody)

  // ---------------------------------------------------------------------
  // GET: subscription handshake
  // ---------------------------------------------------------------------

  /**
   * The handshake answer for the query parameters hub.mode, hub.challenge
   * and hub.verify_token, given the configured verify token. The token must
   * be present and non-empty (JavaScript truthiness), so an empty token is
   * refused even when the configured token is empty too.
   */
  function Verify(mode: Option<string>, challenge: Option<string>, token: Option<string>,
                  verifyToken: Option<string>): (r: Response)
    ensures r.status == 200 <==>
              mode == Some("subscribe") && token.Some? && token.value != "" && token == verifyToken
    ensures r.status == 200 ==> r.body == Text(challenge.GetOr(""))
    ensures r.status != 200 ==> r == Response(403, JsonMessage("Verification failed"))
  {
    if mode == Some("subscribe") && token.Some? && token.value != "" && token == verifyToken then
      Response(200, Text(challenge.GetOr("")))
    else
      Response(403, JsonMessage("Verification failed"))
  }

  // ---------------------------------------------------------------------
  // POST payload: every nested level may be absent
  // ---------------------------------------------------------------------

  datatype Profile = Profile(name: Option<string>)
  datatype Contact = Contact(waId: Option<string>, profile: Option<Profile>)
  datatype TextPart = TextPart(body: Option<string>)
  /** A provider message; `kind` is its `type` field. */
  datatype Message = Message(from: string, kind: Option<string>, text: Option<TextPart>)
  datatype ChangeValue = ChangeValue(messages: Option<seq<Message>>, contacts: Option<seq<Contact>>)
  datatype Change = Change(value: Option<ChangeValue>)
  datatype Entry = Entry(changes: Option<seq<Change>>)
  datatype Payload = Payload(entry: Option<seq<Entry>>)

  /** The request body: a decoded payload, or a body that failed to parse as JSON. */
  datatype Body = Parsed(payload: Payload) | Malformed(detail: string)

  /** An id and a timestamp for a log entry, both opaque. */
  datatype Stamp = Stamp(id: string, timestamp: string)

  /** One message of the payload together with the contacts of the change it came in. */
  datatype Inbound = Inbound(message: Message, contacts: seq<Contact>)

  function EntriesOf(p: Payload): seq<Entry> {
    p.entry.GetOr([])
  }

  function ChangesOf(e: Entry): seq<Change> {
    e.changes.GetOr([])
  }

  function MessagesOf(c: Change): seq<Message> {
    if c.value.Some? then c.value.value.messages.GetOr([]) else []
  }

  function ContactsOf(c: Change): seq<Contact> {
    if c.value.Some? then c.value.value.contacts.GetOr([]) else []
  }

  /** The messages of one change, each paired with that change's contacts, in order. */
  function Pair(messages: seq<Message>, contacts: seq<Contact>): (r: seq<Inbound>)
    ensures |r| == |messages|
  {
    seq(|messages|, i requires 0 <= i < |messages| => Inbound(messages[i], contacts))
  }

  /** The messages of a sequence of changes, in payload order. */
  function FlattenChanges(changes: seq<Change>): seq<Inbound>
    decreases |changes|
  {
    if changes == [] then []
    else
      var last := changes[|changes| - 1];
      FlattenChanges(changes[..|changes| - 1]) + Pair(MessagesOf(last), ContactsOf(last))
  }

  /** The messages of a sequence of entries, in payload order. */
  function Flatten(entries: seq<Entry>): seq<Inbound>
    decreases |entries|
  {
    if entries == [] then []
    else Flatten(entries[..|entries| - 1]) + FlattenChanges(ChangesOf(entries[|entries| - 1]))
  }

  /** The normalised message list of a payload. */
  function InboundOf(p: Payload): seq<Inbound> {
    Flatten(EntriesOf(p))
  }

  // ---------------------------------------------------------------------
  // Per-message decisions
  // ---------------------------------------------------------------------

  const PreviewLimit: nat := 120

  /** The fixed suffix of the AI-enriched fallback reply. */
  const AiNote: string := "\n\n(Automated AI note: I'll follow up with more details soon.)"

  predicate IsText(m: Message) {
    m.kind == Some("text")
  }

  /** The first contact whose wa_id is the sender, as `contacts.find` returns it. */
  function FindContact(contacts: seq<Contact>, from: string): (r: Option<Contact>)
    ensures r.Some? ==> r.value in contacts && r.value.waId == Some(from)
    decreases |contacts|
  {
    if contacts == [] then None
    else if contacts[0].waId == Some(from) then Some(contacts[0])
    else FindContact(contacts[1..], from)
  }

  /** The profile name a contact carries, if any. */
  function ProfileName(c: Contact): Option<string> {
    if c.profile.Some? then c.profile.value.name else None
  }

  /**
   * The display name: the profile name of the first contact whose wa_id is
   * the sender, else the raw sender id (also when that contact has no name).
   */
  function ContactName(m: Message, contacts: seq<Contact>): string {
    var c := FindContact(contacts, m.from);
    if c.Some? then ProfileName(c.value).GetOr(m.from) else m.from
  }

  /** The message body, empty when absent. */
  function BodyOf(m: Message): string {
    if m.text.Some? then m.text.value.body.GetOr("") else ""
  }

  /** The log preview: the body cut to its first 120 characters. */
  function Preview(body: string): (p: string)
    ensures |p| == (if |body| < PreviewLimit then |body| else PreviewLimit)
    ensures p == body[..|p|]
  {
    body[..if |body| < PreviewLimit then |body| else PreviewLimit]
  }

  /** The incoming log entry a text message produces. */
  function IncomingEntry(m: Message, contacts: seq<Contact>, s: Stamp): LogEntry {
    LogEntry(s.id, Incoming, s.timestamp, ContactName(m, contacts), Preview(BodyOf(m)), None)
  }

  /**
   * The text to send, if any, given the rule the matcher chose: the matched
   * rule's response (whatever the AI flag), else the AI-enriched default,
   * else the plain default. An empty reply is not sent, except on the
   * AI-enriched path, whose text always carries the suffix.
   */
  function ReplyFor(config: AgentConfig, matched: Option<Rule>): (r: Option<string>)
    ensures matched.Some? ==>
              r == (if matched.value.response == "" then None else Some(matched.value.response))
    ensures matched.None? && config.aiEnabled ==> r == Some(config.defaultResponse + AiNote)
    ensures matched.None? && !config.aiEnabled ==>
              r == (if config.defaultResponse == "" then None else Some(config.defaultResponse))
    ensures r.Some? ==> r.value != ""
  {
    var reply := if matched.Some? then matched.value.response else config.defaultResponse;
    if config.aiEnabled && matched.None? then Some(reply + AiNote)
    else if reply != "" then Some(reply)
    else None
  }

  /** The log entries one message contributes: one incoming entry if it is a text message. */
  function LogFor(x: Inbound, s: Stamp): seq<LogEntry> {
    if IsText(x.message) then [IncomingEntry(x.message, x.contacts, s)] else []
  }

  /** The sends one message causes: at most one, always to its sender. */
  function IntentFor(x: Inbound, config: AgentConfig, evaluate: Evaluator): (r: seq<Intent>)
    ensures |r| <= 1
    ensures r != [] <==> IsText(x.message) && ReplyFor(config, evaluate(config.rules, BodyOf(x.message))).Some?
    ensures r != [] ==>
              r[0] == Intent(x.message.from, ReplyFor(config, evaluate(config.rules, BodyOf(x.message))).value) &&
              r[0].text != ""
  {
    if !IsText(x.message) then []
    else
      var reply := ReplyFor(config, evaluate(config.rules, BodyOf(x.message)));
      if reply.Some? then [Intent(x.message.from, reply.value)] else []
  }

  /**
   * The log entries a message list contributes, newest first; the message at
   * position k of the list is stamped with stamp(k).
   */
  function LogsFor(ins: seq<Inbound>, stamp: nat -> Stamp): seq<LogEntry>
    decreases |ins|
  {
    if ins == [] then []
    else LogFor(ins[|ins| - 1], stamp(|ins| - 1)) + LogsFor(ins[..|ins| - 1], stamp)
  }

  /** The sends a message list causes, in payload order. */
  function IntentsFor(ins: seq<Inbound>, config: AgentConfig, evaluate: Evaluator): seq<Intent>
    decreases |ins|
  {
    if ins == [] then []
    else IntentsFor(ins[..|ins| - 1], config, evaluate) + IntentFor(ins[|ins| - 1], config, evaluate)
  }

  // ---------------------------------------------------------------------
  // POST: the imperative pipeline
  // ---------------------------------------------------------------------

  /** Processes one message: for a text message, log it, then decide and send the reply. */
  method HandleMessage(store: Store, transport: Transport, message: Message, contacts: seq<Contact>,
                       evaluate: Evaluator, s: Stamp)
    modifies store, transport
    ensures store.config == old(store.config)
    ensures store.logs == LogFor(Inbound(message, contacts), s) + old(store.logs)
    ensures transport.outbox == old(transport.outbox) + IntentFor(Inbound(message, contacts), old(store.config), evaluate)
  {
    if message.kind != Some("text") {
      return;
    }
    var contactName := ContactName(message, contacts);
    var textBody := BodyOf(message);
    store.PushLog(LogEntry(s.id, Incoming, s.timestamp, contactName, Preview(textBody), None));

    var config := store.config;
    var matched := evaluate(config.rules, textBody);
    var reply := if matched.Some? then matched.value.response else config.defaultResponse;
    if config.aiEnabled && matched.None? {
      transport.SendTextMessage(message.from, reply + AiNote);
      return;
    }
    if reply != "" {
      transport.SendTextMessage(message.from, reply);
    }
  }

  /** Log stamps for the messages that follow the first n: message k gets stamp(n + k). */
  function Shift(stamp: nat -> Stamp, n: nat): nat -> Stamp {
    (k: nat) => stamp(n + k)
  }

  /** One more message adds its own entries in front, stamped with its position. */
  lemma LogsForSnoc(a: seq<Inbound>, x: Inbound, stamp: nat -> Stamp)
    ensures LogsFor(a + [x], stamp) == LogFor(x, stamp(|a|)) + LogsFor(a, stamp)
  {
    assert (a + [x])[..|a|] == a;
  }

  /** One more message adds its own sends at the end. */
  lemma IntentsForSnoc(a: seq<Inbound>, x: Inbound, config: AgentConfig, evaluate: Evaluator)
    ensures IntentsFor(a + [x], config, evaluate) == IntentsFor(a, config, evaluate) + IntentFor(x, config, evaluate)
  {
    assert (a + [x])[..|a|] == a;
  }

  lemma LogsStep(done: seq<Inbound>, x: Inbound, stamp: nat -> Stamp, logs0: seq<LogEntry>, before: seq<LogEntry>)
    requires before == LogsFor(done, stamp) + logs0
    ensures LogFor(x, stamp(|done|)) + before == LogsFor(done + [x], stamp) + logs0
  {
    LogsForSnoc(done, x, stamp);
    PrependOnto(LogFor(x, stamp(|done|)), LogsFor(done, stamp), LogsFor(done + [x], stamp), logs0, before);
  }

  /**
   * Putting `e` in front of `l + rest` is putting `e + l` in front of `rest`.
   * Stated over plain sequences so that the step needs no unfolding of the
   * log functions.
   */
  lemma PrependOnto<T>(e: seq<T>, l: seq<T>, longer: seq<T>, rest: seq<T>, before: seq<T>)
    requires before == l + rest && longer == e + l
    ensures e + before == longer + rest
  {
  }

  lemma IntentsStep(done: seq<Inbound>, x: Inbound, config: AgentConfig, evaluate: Evaluator,
                    outbox0: seq<Intent>, before: seq<Intent>)
    requires before == outbox0 + IntentsFor(done, config, evaluate)
    ensures before + IntentFor(x, config, evaluate) == outbox0 + IntentsFor(done + [x], config, evaluate)
  {
    IntentsForSnoc(done, x, config, evaluate);
    AppendOnto(outbox0, IntentsFor(done, config, evaluate), IntentFor(x, config, evaluate),
               IntentsFor(done + [x], config, evaluate), before);
  }

  /** Appending `t` to `rest + l` is appending `l + t` to `rest`; the counterpart of PrependOnto. */
  lemma AppendOnto<T>(rest: seq<T>, l: seq<T>, t: seq<T>, longer: seq<T>, before: seq<T>)
    requires before == rest + l && longer == l + t
    ensures before + t == rest + longer
  {
  }

  /** Later messages' entries go in front of earlier ones, and keep their payload position. */
  lemma {:induction false} LogsForConcat(a: seq<Inbound>, b: seq<Inbound>, stamp: nat -> Stamp)
    ensures LogsFor(a + b, stamp) == LogsFor(b, Shift(stamp, |a|)) + LogsFor(a, stamp)
    decreases |b|
  {
    if b == [] {
      assert a + b == a;
    } else {
      var b', x := b[..|b| - 1], b[|b| - 1];
      assert (a + b)[..|a + b| - 1] == a + b';
      assert (a + b)[|a + b| - 1] == x;
      LogsForConcat(a, b', stamp);
      assert Shift(stamp, |a|)(|b| - 1) == stamp(|a + b| - 1);
      calc {
        LogsFor(a + b, stamp);
        LogFor(x, stamp(|a + b| - 1)) + LogsFor(a + b', stamp);
        LogFor(x, stamp(|a + b| - 1)) + (LogsFor(b', Shift(stamp, |a|)) + LogsFor(a, stamp));
        (LogFor(x, Shift(stamp, |a|)(|b| - 1)) + LogsFor(b', Shift(stamp, |a|))) + LogsFor(a, stamp);
        LogsFor(b, Shift(stamp, |a|)) + LogsFor(a, stamp);
      }
    }
  }

  /** The sends of two consecutive message lists are those of the first, then those of the second. */
  lemma {:induction false} IntentsForConcat(a: seq<Inbound>, b: seq<Inbound>, config: AgentConfig, evaluate: Evaluator)
    ensures IntentsFor(a + b, config, evaluate) == IntentsFor(a, config, evaluate) + IntentsFor(b, config, evaluate)
    decreases |b|
  {
    if b == [] {
      assert a + b == a;
    } else {
      var b' := b[..|b| - 1];
      assert (a + b)[..|a + b| - 1] == a + b';
      IntentsForConcat(a, b', config, evaluate);
    }
  }

  /** The messages of one change (the `messages.forEach` body), in order. */
  method ProcessChange(store: Store, transport: Transport, change: Change, evaluate: Evaluator, stamp: nat -> Stamp)
    modifies store, transport
    ensures store.config == old(store.config)
    ensures store.logs == LogsFor(Pair(MessagesOf(change), ContactsOf(change)), stamp) + old(store.logs)
    ensures transport.outbox ==
              old(transport.outbox) + IntentsFor(Pair(MessagesOf(change), ContactsOf(change)), old(store.config), evaluate)
  {
    ghost var config, logs0, outbox0 := store.config, store.logs, transport.outbox;
    var messages := MessagesOf(change);
    var contacts := ContactsOf(change);
    ghost var done: seq<Inbound> := [];
    var k := 0;
    assert messages[..0] == [];
    while k < |messages|
      invariant 0 <= k <= |messages| && |done| == k
      invariant forall i :: 0 <= i < k ==> done[i] == Inbound(messages[i], contacts)
      invariant store.config == config
      invariant store.logs == LogsFor(done, stamp) + logs0
      invariant transport.outbox == outbox0 + IntentsFor(done, config, evaluate)
    {
      ghost var x := Inbound(messages[k], contacts);
      ghost var logsBefore, outboxBefore := store.logs, transport.outbox;
      HandleMessage(store, transport, messages[k], contacts, evaluate, stamp(k));
      LogsStep(done, x, stamp, logs0, logsBefore);
      IntentsStep(done, x, config, evaluate, outbox0, outboxBefore);
      done := done + [x];
      k := k + 1;
    }
    assert done == Pair(messages, contacts);
  }

  /** The changes of one entry, in order. */
  method ProcessEntry(store: Store, transport: Transport, entry: Entry, evaluate: Evaluator, stamp: nat -> Stamp)
    modifies store, transport
    ensures store.config == old(store.config)
    ensures store.logs == LogsFor(FlattenChanges(ChangesOf(entry)), stamp) + old(store.logs)
    ensures transport.outbox == old(transport.outbox) + IntentsFor(FlattenChanges(ChangesOf(entry)), old(store.config), evaluate)
  {
    ghost var config, logs0, outbox0 := store.config, store.logs, transport.outbox;
    var changes := ChangesOf(entry);
    ghost var done: seq<Inbound> := [];
    var n: nat := 0;
    var j := 0;
    assert changes[..0] == [];
    while j < |changes|
      invariant 0 <= j <= |changes|
      invariant done == FlattenChanges(changes[..j]) && n == |done|
      invariant store.config == config
      invariant store.logs == LogsFor(done, stamp) + logs0
      invariant transport.outbox == outbox0 + IntentsFor(done, config, evaluate)
    {
      ghost var more := Pair(MessagesOf(changes[j]), ContactsOf(changes[j]));
      ghost var logsBefore, outboxBefore := store.logs, transport.outbox;
      ProcessChange(store, transport, changes[j], evaluate, Shift(stamp, n));
      LogsAppend(done, more, stamp, logs0, logsBefore);
      IntentsAppend(done, more, config, evaluate, outbox0, outboxBefore);
      FlattenChangesPrefix(changes, j);
      done := done + more;
      n := n + |MessagesOf(changes[j])|;
      j := j + 1;
    }
    assert changes[..j] == changes;
  }

  /**
   * Handles a webhook delivery: walks entries, then changes, then messages,
   * in payload order, and answers 200 {status: "received"}; a body that is
   * not JSON is answered 500 and changes nothing.
   */
  method Post(store: Store, transport: Transport, body: Body, evaluate: Evaluator, stamp: nat -> Stamp)
    returns (response: Response)
    modifies store, transport
    ensures store.config == old(store.config)
    ensures body.Malformed? ==>
              response == Response(500, JsonError("Webhook error", body.detail)) &&
              store.logs == old(store.logs) && transport.outbox == old(transport.outbox)
    ensures body.Parsed? ==>
              response == Response(200, JsonStatus("received")) &&
              store.logs == LogsFor(InboundOf(body.payload), stamp) + old(store.logs) &&
              transport.outbox == old(transport.outbox) + IntentsFor(InboundOf(body.payload), old(store.config), evaluate)
  {
    if body.Malformed? {
      return Response(500, JsonError("Webhook error", body.detail));
    }
    ghost var config, logs0, outbox0 := store.config, store.logs, transport.outbox;
    var entries := EntriesOf(body.payload);
    ghost var done: seq<Inbound> := [];
    var n: nat := 0;
    var i := 0;
    assert entries[..0] == [];
    while i < |entries|
      invariant 0 <= i <= |entries|
      invariant done == Flatten(entries[..i]) && n == |done|
      invariant store.config == config
      invariant store.logs == LogsFor(done, stamp) + logs0
      invariant transport.outbox == outbox0 + IntentsFor(done, config, evaluate)
    {
      var more := FlattenChanges(ChangesOf(entries[i]));
      ghost var logsBefore, outboxBefore := store.logs, transport.outbox;
      ProcessEntry(store, transport, entries[i], evaluate, Shift(stamp, n));
      LogsAppend(done, more, stamp, logs0, logsBefore);
      IntentsAppend(done, more, config, evaluate, outbox0, outboxBefore);
      FlattenPrefix(entries, i);
      done := done + more;
      n := n + |more|;
      i := i + 1;
    }
    assert entries[..i] == entries;
    return Response(200, JsonStatus("received"));
  }

  lemma LogsAppend(done: seq<Inbound>, more: seq<Inbound>, stamp: nat -> Stamp, logs0: seq<LogEntry>, before: seq<LogEntry>)
    requires before == LogsFor(done, stamp) + logs0
    ensures LogsFor(more, Shift(stamp, |done|)) + before == LogsFor(done + more, stamp) + logs0
  {
    LogsForConcat(done, more, stamp);
  }

  lemma IntentsAppend(done: seq<Inbound>, more: seq<Inbound>, config: AgentConfig, evaluate: Evaluator,
                      outbox0: seq<Intent>, before: seq<Intent>)
    requires before == outbox0 + IntentsFor(done, config, evaluate)
    ensures before + IntentsFor(more, config, evaluate) == outbox0 + IntentsFor(done + more, config, evaluate)
  {
    IntentsForConcat(done, more, config, evaluate);
  }

  lemma FlattenChangesPrefix(changes: seq<Change>, j: nat)
    requires j < |changes|
    ensures FlattenChanges(changes[..j + 1]) ==
              FlattenChanges(changes[..j]) + Pair(MessagesOf(changes[j]), ContactsOf(changes[j]))
  {
    assert changes[..j + 1][..j] == changes[..j];
  }

  lemma FlattenPrefix(entries: seq<Entry>, i: nat)
    requires i < |entries|
    ensures Flatten(entries[..i + 1]) == Flatten(entries[..i]) + FlattenChanges(ChangesOf(entries[i]))
  {
    assert entries[..i + 1][..i] == entries[..i];
  }
}
