/**
 * What the webhook promises, stated over the specification functions that
 * Webhook.Post is proved against: how the contact name is found, what is
 * logged, who is answered and how often, and what a malformed or empty
 * payload does.
 */
module WebhookProperties {
  import opened Wrappers
  import opened Types
  import opened Webhook

  // ---------------------------------------------------------------------
  // Contact lookup
  // ---------------------------------------------------------------------

  /** `find` returns the first contact whose wa_id is the sender. */
  lemma {:induction false} FindContactFirstMatch(contacts: seq<Contact>, from: string, i: nat)
    requires i < |contacts| && contacts[i].waId == Some(from)
    requires forall j :: 0 <= j < i ==> contacts[j].waId != Some(from)
    ensures FindContact(contacts, from) == Some(contacts[i])
    decreases i
  {
    if i > 0 {
      assert contacts[0].waId != Some(from);
      FindContactFirstMatch(contacts[1..], from, i - 1);
    }
  }

  /** `find` finds nothing when no contact's wa_id is the sender. */
  lemma {:induction false} FindContactNoMatch(contacts: seq<Contact>, from: string)
    requires forall j :: 0 <= j < |contacts| ==> contacts[j].waId != Some(from)
    ensures FindContact(contacts, from) == None
    decreases |contacts|
  {
    if contacts != [] {
      FindContactNoMatch(contacts[1..], from);
    }
  }

  /**
   * The logged contact is the profile name of the first contact whose wa_id
   * is the sender; the raw sender id when that contact has no profile name.
   */
  lemma ContactNameOfFirstMatch(m: Message, contacts: seq<Contact>, i: nat)
    requires i < |contacts| && contacts[i].waId == Some(m.from)
    requires forall j :: 0 <= j < i ==> contacts[j].waId != Some(m.from)
    ensures ContactName(m, contacts) == ProfileName(contacts[i]).GetOr(m.from)
    ensures ProfileName(contacts[i]).None? ==> ContactName(m, contacts) == m.from
  {
    FindContactFirstMatch(contacts, m.from, i);
  }

  /** With no contact for the sender, the logged contact is the raw sender id. */
  lemma ContactNameOfUnknownSender(m: Message, contacts: seq<Contact>)
    requires forall j :: 0 <= j < |contacts| ==> contacts[j].waId != Some(m.from)
    ensures ContactName(m, contacts) == m.from
  {
    FindContactNoMatch(contacts, m.from);
  }

  // ---------------------------------------------------------------------
  // The activity log
  // ---------------------------------------------------------------------

  /** The number of text messages in a message list. */
  function TextCount(ins: seq<Inbound>): nat
    decreases |ins|
  {
    if ins == [] then 0
    else TextCount(ins[..|ins| - 1]) + (if IsText(ins[|ins| - 1].message) then 1 else 0)
  }

  /** Exactly one log entry per text message. */
  lemma {:induction false} OneLogEntryPerTextMessage(ins: seq<Inbound>, stamp: nat -> Stamp)
    ensures |LogsFor(ins, stamp)| == TextCount(ins)
    decreases |ins|
  {
    if ins != [] {
      OneLogEntryPerTextMessage(ins[..|ins| - 1], stamp);
    }
  }

  /**
   * Every log entry is the incoming entry of one of the text messages,
   * stamped with that message's position: nothing outgoing is logged and no
   * entry carries a rule id.
   */
  lemma {:induction false} LogEntriesAreIncoming(ins: seq<Inbound>, stamp: nat -> Stamp)
    ensures forall e :: e in LogsFor(ins, stamp) ==> e.direction == Incoming && e.ruleId == None
    ensures forall e :: e in LogsFor(ins, stamp) ==>
              exists k :: 0 <= k < |ins| && IsText(ins[k].message) &&
                          e == IncomingEntry(ins[k].message, ins[k].contacts, stamp(k))
    decreases |ins|
  {
    if ins != [] {
      var prefix := ins[..|ins| - 1];
      LogEntriesAreIncoming(prefix, stamp);
      forall e | e in LogsFor(ins, stamp)
        ensures exists k :: 0 <= k < |ins| && IsText(ins[k].message) &&
                            e == IncomingEntry(ins[k].message, ins[k].contacts, stamp(k))
      {
        if e in LogFor(ins[|ins| - 1], stamp(|ins| - 1)) {
          assert IsText(ins[|ins| - 1].message);
        } else {
          assert e in LogsFor(prefix, stamp);
          var k :| 0 <= k < |prefix| && IsText(prefix[k].message) &&
                   e == IncomingEntry(prefix[k].message, prefix[k].contacts, stamp(k));
          assert prefix[k] == ins[k];
        }
      }
    }
  }

  /** Every preview is at most 120 characters long and is a prefix of some text message's body. */
  lemma PreviewsAreBounded(ins: seq<Inbound>, stamp: nat -> Stamp)
    ensures forall e :: e in LogsFor(ins, stamp) ==>
              |e.preview| <= PreviewLimit &&
              exists k :: 0 <= k < |ins| && IsText(ins[k].message) && e.preview <= BodyOf(ins[k].message)
  {
    LogEntriesAreIncoming(ins, stamp);
  }

  // ---------------------------------------------------------------------
  // Sends
  // ---------------------------------------------------------------------

  /** At most one send per text message. */
  lemma {:induction false} AtMostOneSendPerTextMessage(ins: seq<Inbound>, config: AgentConfig, evaluate: Evaluator)
    ensures |IntentsFor(ins, config, evaluate)| <= TextCount(ins)
    decreases |ins|
  {
    if ins != [] {
      AtMostOneSendPerTextMessage(ins[..|ins| - 1], config, evaluate);
    }
  }

  /**
   * Every send answers the sender of a text message with that message's
   * resolved reply, which is non-empty.
   */
  lemma {:induction false} SendsGoToSenders(ins: seq<Inbound>, config: AgentConfig, evaluate: Evaluator)
    ensures forall t :: t in IntentsFor(ins, config, evaluate) ==>
              t.text != "" &&
              exists k :: 0 <= k < |ins| && IsText(ins[k].message) && t.to == ins[k].message.from &&
                          ReplyFor(config, evaluate(config.rules, BodyOf(ins[k].message))) == Some(t.text)
    decreases |ins|
  {
    if ins != [] {
      var prefix := ins[..|ins| - 1];
      SendsGoToSenders(prefix, config, evaluate);
      forall t | t in IntentsFor(ins, config, evaluate)
        ensures t.text != "" &&
                exists k :: 0 <= k < |ins| && IsText(ins[k].message) && t.to == ins[k].message.from &&
                            ReplyFor(config, evaluate(config.rules, BodyOf(ins[k].message))) == Some(t.text)
      {
        if t in IntentFor(ins[|ins| - 1], config, evaluate) {
          assert IsText(ins[|ins| - 1].message) && t.to == ins[|ins| - 1].message.from;
        } else {
          assert t in IntentsFor(prefix, config, evaluate);
          var k :| 0 <= k < |prefix| && IsText(prefix[k].message) && t.to == prefix[k].message.from &&
                   ReplyFor(config, evaluate(config.rules, BodyOf(prefix[k].message))) == Some(t.text);
          assert prefix[k] == ins[k];
        }
      }
    }
  }

  /** Every text message whose resolved reply is non-empty is answered, with that reply, at its sender. */
  lemma TextMessageWithReplyIsAnswered(ins: seq<Inbound>, k: nat, config: AgentConfig, evaluate: Evaluator)
    requires k < |ins| && IsText(ins[k].message)
    requires ReplyFor(config, evaluate(config.rules, BodyOf(ins[k].message))).Some?
    ensures Intent(ins[k].message.from, ReplyFor(config, evaluate(config.rules, BodyOf(ins[k].message))).value)
              in IntentsFor(ins, config, evaluate)
  {
    var m := ins[k].message;
    var t := Intent(m.from, ReplyFor(config, evaluate(config.rules, BodyOf(m))).value);
    assert IntentFor(ins[k], config, evaluate) == [t];
    assert ins == ins[..k] + [ins[k]] + ins[k + 1..];
    IntentsForConcat(ins[..k] + [ins[k]], ins[k + 1..], config, evaluate);
    IntentsForSnoc(ins[..k], ins[k], config, evaluate);
  }

  /** A message that is not a text message changes neither the sends nor, at the end, the log. */
  lemma NonTextMessageIsIgnored(a: seq<Inbound>, x: Inbound, b: seq<Inbound>, config: AgentConfig,
                                evaluate: Evaluator, stamp: nat -> Stamp)
    requires !IsText(x.message)
    ensures IntentsFor(a + [x] + b, config, evaluate) == IntentsFor(a + b, config, evaluate)
    ensures LogsFor(a + [x], stamp) == LogsFor(a, stamp)
  {
    assert IntentFor(x, config, evaluate) == [];
    assert LogFor(x, stamp(|a|)) == [];
    calc {
      IntentsFor(a + [x] + b, config, evaluate);
      { IntentsForConcat(a + [x], b, config, evaluate); }
      IntentsFor(a + [x], config, evaluate) + IntentsFor(b, config, evaluate);
      { IntentsForSnoc(a, x, config, evaluate); }
      IntentsFor(a, config, evaluate) + IntentsFor(b, config, evaluate);
      { IntentsForConcat(a, b, config, evaluate); }
      IntentsFor(a + b, config, evaluate);
    }
    LogsForSnoc(a, x, stamp);
  }

  // ---------------------------------------------------------------------
  // Reply resolution against the resolver's reference definition
  // ---------------------------------------------------------------------

  /** The resolver as a separate definition: rule response, else AI-enriched default, else default. */
  function Resolve(matched: Option<Rule>, config: AgentConfig): string {
    match matched
    case Some(rule) => rule.response
    case None =>
      if config.aiEnabled then config.defaultResponse + AiNote
      else config.defaultResponse
  }

  /**
   * The webhook's reply is the resolver's text with empty texts suppressed;
   * in particular the AI-enriched fallback is sent even when the default
   * response is empty, and a matched rule wins whatever the AI flag.
   */
  lemma ReplyIsResolvedTextUnlessEmpty(config: AgentConfig, matched: Option<Rule>)
    ensures var text := Resolve(matched, config);
            ReplyFor(config, matched) == if text == "" then None else Some(text)
    ensures matched.None? && config.aiEnabled ==> ReplyFor(config, matched).Some?
  {
    assert |AiNote| > 0;
  }

  // ---------------------------------------------------------------------
  // Payload unpacking
  // ---------------------------------------------------------------------

  /** A payload without entries, or with an empty entry list, is processed as no messages. */
  lemma EmptyPayloadDoesNothing(p: Payload, config: AgentConfig, evaluate: Evaluator, stamp: nat -> Stamp)
    requires p.entry.None? || p.entry == Some([])
    ensures InboundOf(p) == []
    ensures LogsFor(InboundOf(p), stamp) == [] && IntentsFor(InboundOf(p), config, evaluate) == []
  {
  }

  /** Missing changes, values, messages or contacts default to empty sequences. */
  lemma {:induction false} MissingLevelsAreEmpty(entries: seq<Entry>)
    requires forall i :: 0 <= i < |entries| ==>
               forall c :: c in ChangesOf(entries[i]) ==> c.value.None? || c.value.value.messages.None?
    ensures Flatten(entries) == []
    decreases |entries|
  {
    if entries != [] {
      var last := entries[|entries| - 1];
      MissingLevelsAreEmpty(entries[..|entries| - 1]);
      NoMessagesInChanges(ChangesOf(last));
    }
  }

  lemma {:induction false} NoMessagesInChanges(changes: seq<Change>)
    requires forall c :: c in changes ==> c.value.None? || c.value.value.messages.None?
    ensures FlattenChanges(changes) == []
    decreases |changes|
  {
    if changes != [] {
      NoMessagesInChanges(changes[..|changes| - 1]);
    }
  }

  /** The payload of one entry with one change carrying one message flattens to that message. */
  lemma SingleMessagePayload(m: Message, contacts: seq<Contact>)
    ensures InboundOf(Payload(Some([Entry(Some([Change(Some(ChangeValue(Some([m]), Some(contacts))))]))]))) ==
              [Inbound(m, contacts)]
  {
    var x := Inbound(m, contacts);
    var c := Change(Some(ChangeValue(Some([m]), Some(contacts))));
    var entries := [Entry(Some([c]))];
    assert Pair(MessagesOf(c), ContactsOf(c)) == [x];
    assert [c][..0] == [];
    assert FlattenChanges([c]) == FlattenChanges([]) + [x];
    assert entries[..0] == [];
    assert ChangesOf(entries[0]) == [c];
    assert Flatten(entries) == Flatten([]) + FlattenChanges([c]);
  }

  /**
   * One entry with one text message from a sender with no contact record,
   * no matching rule and the AI flag off: one incoming entry naming the raw
   * sender id, and one send of the default response when it is non-empty.
   */
  lemma UnknownSenderGetsDefault(m: Message, contacts: seq<Contact>, config: AgentConfig,
                                 evaluate: Evaluator, stamp: nat -> Stamp)
    requires IsText(m) && !config.aiEnabled && evaluate(config.rules, BodyOf(m)).None?
    requires forall j :: 0 <= j < |contacts| ==> contacts[j].waId != Some(m.from)
    ensures var p := Payload(Some([Entry(Some([Change(Some(ChangeValue(Some([m]), Some(contacts))))]))]));
            && LogsFor(InboundOf(p), stamp) ==
                 [LogEntry((stamp(0)).id, Incoming, (stamp(0)).timestamp, m.from, Preview(BodyOf(m)), None)]
            && IntentsFor(InboundOf(p), config, evaluate) ==
                 (if config.defaultResponse == "" then [] else [Intent(m.from, config.defaultResponse)])
  {
    var x := Inbound(m, contacts);
    SingleMessagePayload(m, contacts);
    // the one log entry, named after the raw sender id
    ContactNameOfUnknownSender(m, contacts);
    assert LogFor(x, stamp(0)) ==
             [LogEntry((stamp(0)).id, Incoming, (stamp(0)).timestamp, m.from, Preview(BodyOf(m)), None)];
    LogsForSnoc([], x, stamp);
    assert [] + [x] == [x];
    assert LogsFor([], stamp) == [];
    // the one reply: the plain default, suppressed when empty
    assert ReplyFor(config, None) == (if config.defaultResponse == "" then None else Some(config.defaultResponse));
    assert IntentFor(x, config, evaluate) ==
             (if config.defaultResponse == "" then [] else [Intent(m.from, config.defaultResponse)]);
    IntentsForSnoc([], x, config, evaluate);
    assert IntentsFor([], config, evaluate) == [];
  }

}
