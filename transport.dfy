/**
 * SendgridTransport: a Swift transport that sends through SendGrid.
 *
 * Its only state is the `started` flag. `Send` self-starts, lets an optional
 * send event cancel the attempt, translates the message, submits it, and
 * classifies the response all-or-nothing. The SendGrid client is represented
 * by the response it gives to this call (`ClientResponse`); the event
 * dispatcher by the event it created (or null) and by a ghost trace of the
 * calls the transport makes on its collaborators.
 */
module Transport {
  import opened Wrappers
  import opened PhpArrays
  import opened SwiftMessage
  import MessageTranslator

  /** The by-reference `$failedRecipients` array. */
  type FailedRecipients = PhpArray<Option<string>>

  /** What the provider client does with the request: answers with a status code, or throws. */
  datatype ClientResponse = Responded(statusCode: int) | Threw

  datatype Phase = BeforeSendPerformed | SendPerformed

  /** The result the transport sets on the send event. */
  datatype SendResult = ResultSuccess | ResultFailed

  /** A call the transport makes on a collaborator during `Send`. */
  datatype Step = Dispatched(phase: Phase) | Translated | ClientCalled

  /** Whether the dispatcher created a send event, and if so whether the
      listeners of `beforeSendPerformed` cancelled its bubbling. */
  datatype EventState = NoEvent | Event(cancelled: bool)

  /** What one `Send` call yields: the accepted count, the new by-reference
      failed recipients, what it set on the event, and the calls it made. */
  datatype Outcome = Outcome(
    sent: nat,
    failedRecipients: Option<FailedRecipients>,
    result: Option<SendResult>,
    eventFailedRecipients: Option<FailedRecipients>,
    steps: seq<Step>)

  /** A response is successful exactly when its status code is a 2xx code. */
  function IsSuccessful(statusCode: int): (r: bool)
    ensures r <==> 200 <= statusCode <= 299
  {
    statusCode < 300 && statusCode > 199
  }

  /** Recipients as counted on success: To, Cc and Bcc sizes added, repeats included. */
  function RecipientCount(m: Message): (r: nat)
    ensures r == |AllRecipients(m)|
  {
    |m.to| + |m.cc| + |m.bcc|
  }

  function AllRecipients(m: Message): seq<Mailbox> {
    m.to + m.cc + m.bcc
  }

  /** `(array)$failedRecipients`: null reads as the empty array. */
  function OldFailed(failed: Option<FailedRecipients>): FailedRecipients {
    failed.GetOr([])
  }

  /** The arguments of the `array_merge` call in `fillFailedRecipients`. */
  function MergeArguments(m: Message, failed: Option<FailedRecipients>): seq<FailedRecipients> {
    [AddressArray(m.to), AddressArray(m.cc), AddressArray(m.bcc), OldFailed(failed)]
  }

  lemma MergeArgumentsConcat(m: Message, failed: Option<FailedRecipients>)
    ensures Concat(MergeArguments(m, failed)) == AddressArray(AllRecipients(m)) + OldFailed(failed)
  {
    ConcatFour(AddressArray(m.to), AddressArray(m.cc), AddressArray(m.bcc), OldFailed(failed));
    AddressArrayConcat(m.to, m.cc);
    AddressArrayConcat(m.to + m.cc, m.bcc);
  }

  /** The failed-recipients array after a rejected send: `array_merge` of To,
      Cc, Bcc and the old array. No key repeats, and it never has more entries
      than the recipients and the old array together. */
  function FillFailedRecipients(m: Message, failed: Option<FailedRecipients>): (r: FailedRecipients)
    ensures WellFormed(r) && Renumbered(r)
    ensures |r| <= RecipientCount(m) + |OldFailed(failed)|
  {
    var args := MergeArguments(m, failed);
    ArrayMergeWellFormed(args);
    MergeArgumentsConcat(m, failed);
    ArrayMerge(args)
  }

  /** With distinct recipient emails and no old array, the failed-recipients
      array is exactly To, Cc and Bcc in order, each email keying its name. */
  lemma FailedRecipientsExact(m: Message)
    requires DistinctEmails(AllRecipients(m))
    ensures FillFailedRecipients(m, None) == AddressArray(AllRecipients(m))
  {
    var all := AddressArray(AllRecipients(m));
    var args := MergeArguments(m, None);
    MergeArgumentsConcat(m, None);
    assert Concat(args) == all;
    ArrayMergeDistinctStrings(args);
  }

  /** Every To, Cc and Bcc email becomes a string key of the failed-recipients
      array, next to the old array's string keys; the old array's
      integer-keyed entries follow in order, renumbered from 0; no key repeats. */
  lemma FailedRecipientsKeys(m: Message, failed: Option<FailedRecipients>)
    ensures var r := FillFailedRecipients(m, failed);
      && WellFormed(r) && Renumbered(r)
      && StrKeys(r) == (set e | e in Emails(AllRecipients(m))) + StrKeys(OldFailed(failed))
      && (forall e :: e in Emails(AllRecipients(m)) ==> StrKey(e) in Keys(r))
      && IntValues(r) == IntValues(OldFailed(failed))
  {
    var args := MergeArguments(m, failed);
    ArrayMergeWellFormed(args);
    ArrayMergeContents(args);
    MergeArgumentsConcat(m, failed);
    StrKeysConcat(AddressArray(AllRecipients(m)), OldFailed(failed));
    IntValuesConcat(AddressArray(AllRecipients(m)), OldFailed(failed));
    AddressArrayKeys(AllRecipients(m));
    forall e | e in Emails(AllRecipients(m)) ensures StrKey(e) in Keys(ArrayMerge(args)) {
      StrKeysHaveKeys(ArrayMerge(args), e);
    }
  }

  /** Each email key of the failed-recipients array holds the name of its last
      occurrence in To, Cc, Bcc and the old array, in that order. */
  lemma FailedRecipientsLookup(m: Message, failed: Option<FailedRecipients>, s: string)
    ensures Lookup(FillFailedRecipients(m, failed), StrKey(s)) ==
      Lookup(AddressArray(AllRecipients(m)) + OldFailed(failed), StrKey(s))
  {
    ArrayMergeLookup(MergeArguments(m, failed), s);
    MergeArgumentsConcat(m, failed);
  }

  predicate NoDuplicates(s: seq<string>) {
    forall i, j :: 0 <= i < j < |s| ==> s[i] != s[j]
  }

  /** A sequence has as many distinct elements as entries exactly when none repeats. */
  lemma {:induction false} DistinctElements(s: seq<string>)
    ensures |set x | x in s| <= |s|
    ensures |set x | x in s| == |s| <==> NoDuplicates(s)
  {
    if s != [] {
      var rest := s[1..];
      DistinctElements(rest);
      ElementsCons(s);
      NoDuplicatesCons(s);
      if s[0] in rest {
        assert (set x | x in s) == (set x | x in rest);
      }
    }
  }

  lemma ElementsCons(s: seq<string>)
    requires s != []
    ensures (set x | x in s) == {s[0]} + (set x | x in s[1..])
  {
    assert s == [s[0]] + s[1..];
  }

  /** A head that recurs in the tail is a duplicate; otherwise the sequence
      repeats nothing exactly when its tail repeats nothing. */
  lemma NoDuplicatesCons(s: seq<string>)
    requires s != []
    ensures s[0] in s[1..] ==> !NoDuplicates(s)
    ensures s[0] !in s[1..] ==> (NoDuplicates(s) <==> NoDuplicates(s[1..]))
  {
    var rest := s[1..];
    if s[0] in rest {
      var j :| 0 <= j < |rest| && rest[j] == s[0];
      assert s[0] == s[j + 1];
    } else {
      if NoDuplicates(rest) {
        forall i, j | 0 <= i < j < |s| ensures s[i] != s[j] {
          if i > 0 { assert s[i] == rest[i - 1] && s[j] == rest[j - 1]; }
        }
      }
      if NoDuplicates(s) {
        forall i, j | 0 <= i < j < |rest| ensures rest[i] != rest[j] {
          assert rest[i] == s[i + 1] && rest[j] == s[j + 1];
        }
      }
    }
  }

  /** Without an old array, the failed-recipients array has one entry per
      distinct recipient email: never more than the count `Send` reports on
      success, and as many exactly when no email appears twice across To, Cc
      and Bcc. */
  lemma FailedRecipientsVersusCount(m: Message)
    ensures |FillFailedRecipients(m, None)| <= RecipientCount(m)
    ensures |FillFailedRecipients(m, None)| == RecipientCount(m) <==> DistinctEmails(AllRecipients(m))
  {
    var args := MergeArguments(m, None);
    var emails := Emails(AllRecipients(m));
    ArrayMergeSize(args);
    MergeArgumentsConcat(m, None);
    assert AddressArray(AllRecipients(m)) + [] == AddressArray(AllRecipients(m));
    AddressArrayKeys(AllRecipients(m));
    DistinctElements(emails);
    assert DistinctEmails(AllRecipients(m)) <==> NoDuplicates(emails);
  }

  /** Swift keeps each field free of repeats, but not the fields apart: one
      address in both To and Cc is counted twice on success and is a single
      failed recipient on failure. */
  lemma SharedAddressCountedTwice(m: Message)
    requires m.Valid() && |m.to| == 1 && m.cc == m.to && m.bcc == []
    ensures RecipientCount(m) == 2
    ensures |FillFailedRecipients(m, None)| == 1
  {
    var r := FillFailedRecipients(m, None);
    var emails := Emails(AllRecipients(m));
    assert emails == [m.to[0].email, m.to[0].email] by {
      assert AllRecipients(m) == [m.to[0], m.to[0]];
    }
    assert (set e | e in emails) == {m.to[0].email};
    FailedRecipientsKeys(m, None);
    assert StrKeys(r) == {m.to[0].email} && IntValues(r) == [] by {
      assert StrKeys(OldFailed(None)) == {} && IntValues(OldFailed(None)) == [];
    }
    WellFormedSize(r);
  }

  predicate Cancelled(event: EventState) {
    event == Event(true)
  }

  /** The message reached the provider and the provider accepted it. */
  predicate Accepted(m: Message, response: ClientResponse) {
    MessageTranslator.Translation(m).Success? && response.Responded? && IsSuccessful(response.statusCode)
  }

  /** The message reached the provider and the provider answered with a non-2xx code. */
  predicate Rejected(m: Message, response: ClientResponse) {
    MessageTranslator.Translation(m).Success? && response.Responded? && !IsSuccessful(response.statusCode)
  }

  /** What is set on the event, when there is one. */
  function ForEvent<T>(event: EventState, x: T): Option<T> {
    if event.Event? then Some(x) else None
  }

  /** The calls of a send that was not cancelled: the before dispatch when there is
      an event, the translator, the client when translation succeeded, and the
      after dispatch when there is an event. */
  function Steps(event: EventState, reachedClient: bool): seq<Step> {
    var middle := if reachedClient then [Translated, ClientCalled] else [Translated];
    match event
    case NoEvent => middle
    case Event(_) => [Dispatched(BeforeSendPerformed)] + middle + [Dispatched(SendPerformed)]
  }

  /** The outcome of one `Send` call. */
  function SendOutcome(m: Message, failed: Option<FailedRecipients>, event: EventState, response: ClientResponse): (o: Outcome)
    // a cancelled send does nothing more and changes nothing
    ensures Cancelled(event) ==>
      && o.sent == 0 && o.failedRecipients == failed
      && o.result.None? && o.eventFailedRecipients.None?
      && o.steps == [Dispatched(BeforeSendPerformed)]
    // otherwise the count is |To| + |Cc| + |Bcc| exactly on a 2xx answer, and 0 on every other path
    ensures !Cancelled(event) ==> o.sent == if Accepted(m, response) then RecipientCount(m) else 0
    // the failed recipients change only on a non-2xx answer
    ensures !Cancelled(event) ==>
      o.failedRecipients == if Rejected(m, response) then Some(FillFailedRecipients(m, failed)) else failed
    // the event learns success or failure, and the failed recipients on a non-2xx answer
    ensures !Cancelled(event) && event.Event? ==>
      && o.result == Some(if Accepted(m, response) then ResultSuccess else ResultFailed)
      && o.eventFailedRecipients == if Rejected(m, response) then o.failedRecipients else None
    // without an event nothing is set on one
    ensures event.NoEvent? ==> o.result.None? && o.eventFailedRecipients.None?
    // the calls made when not cancelled
    ensures !Cancelled(event) ==> o.steps == Steps(event, MessageTranslator.Translation(m).Success?)
  {
    if Cancelled(event) then
      Outcome(0, failed, None, None, [Dispatched(BeforeSendPerformed)])
    else if MessageTranslator.Translation(m).Failure? then
      Outcome(0, failed, ForEvent(event, ResultFailed), None, Steps(event, false))
    else
      match response
      case Threw =>
        Outcome(0, failed, ForEvent(event, ResultFailed), None, Steps(event, true))
      case Responded(code) =>
        if IsSuccessful(code) then
          Outcome(RecipientCount(m), failed, ForEvent(event, ResultSuccess), None, Steps(event, true))
        else
          var f := FillFailedRecipients(m, failed);
          Outcome(0, Some(f), ForEvent(event, ResultFailed), ForEvent(event, f), Steps(event, true))
  }

  /** The calls of a send that was not cancelled, in order: with an event each
      phase is dispatched exactly once, beforeSendPerformed first and
      sendPerformed last; without one nothing is dispatched; the translator
      is always called and the client exactly when the message reached it. */
  lemma StepsOrder(event: EventState, reachedClient: bool)
    ensures var steps := Steps(event, reachedClient);
      && (event.Event? ==>
            && |steps| >= 3
            && steps[0] == Dispatched(BeforeSendPerformed) && Dispatched(BeforeSendPerformed) !in steps[1..]
            && steps[|steps| - 1] == Dispatched(SendPerformed) && Dispatched(SendPerformed) !in steps[..|steps| - 1])
      && (event.NoEvent? ==> Dispatched(BeforeSendPerformed) !in steps && Dispatched(SendPerformed) !in steps)
      && Translated in steps
      && (ClientCalled in steps <==> reachedClient)
  {
    var steps := Steps(event, reachedClient);
    var middle := if reachedClient then [Translated, ClientCalled] else [Translated];
    if event.Event? {
      assert steps[1..] == middle + [Dispatched(SendPerformed)];
      assert steps[..|steps| - 1] == [Dispatched(BeforeSendPerformed)] + middle;
    }
  }

  /** The dispatcher, the translator and the client are called in the order
      the PHP `send` makes the calls: a cancelled send only dispatches beforeSendPerformed; any other
      send makes the calls of `StepsOrder`, reaching the client exactly when the
      message translates. */
  lemma SendCalls(m: Message, failed: Option<FailedRecipients>, event: EventState, response: ClientResponse)
    ensures var steps := SendOutcome(m, failed, event, response).steps;
      && (Cancelled(event) ==> steps == [Dispatched(BeforeSendPerformed)])
      && (!Cancelled(event) && event.Event? ==>
            && |steps| >= 3
            && steps[0] == Dispatched(BeforeSendPerformed) && Dispatched(BeforeSendPerformed) !in steps[1..]
            && steps[|steps| - 1] == Dispatched(SendPerformed) && Dispatched(SendPerformed) !in steps[..|steps| - 1])
      && (event.NoEvent? ==> Dispatched(BeforeSendPerformed) !in steps && Dispatched(SendPerformed) !in steps)
      && (Translated in steps <==> !Cancelled(event))
      && (ClientCalled in steps <==> !Cancelled(event) && MessageTranslator.Translation(m).Success?)
  {
    StepsOrder(event, MessageTranslator.Translation(m).Success?);
  }

  /** The Swift send event the dispatcher creates for one send. */
  class SendEvent {
    /** Whether a listener of `beforeSendPerformed` cancelled the bubble. */
    var bubbleCancelled: bool
    /** The result set by the transport; None while none is set. */
    var result: Option<SendResult>
    var failedRecipients: Option<FailedRecipients>

    constructor (cancelled: bool)
      ensures bubbleCancelled == cancelled && result.None? && failedRecipients.None?
    {
      bubbleCancelled := cancelled;
      result, failedRecipients := None, None;
    }
  }

  function EventStateOf(evt: SendEvent?): EventState
    reads if evt == null then {} else {evt}
  {
    if evt == null then NoEvent else Event(evt.bubbleCancelled)
  }

  class SendgridTransport {
    var started: bool
    /** The calls made on the translator, the client and the dispatcher, in order. */
    ghost var trace: seq<Step>

    constructor ()
      ensures !IsStarted() && trace == []
    {
      started := false;
      trace := [];
    }

    /** Whether the transport is started: set by `Start` and by `Send`, cleared by `Stop`. */
    function IsStarted(): (r: bool)
      reads this
      ensures r <==> started
    {
      started
    }

    method Start()
      modifies this
      ensures IsStarted() && trace == old(trace)
    {
      started := true;
    }

    method Stop()
      modifies this
      ensures !IsStarted() && trace == old(trace)
    {
      started := false;
    }

    /** The transport always reports itself alive. */
    function Ping(): (alive: bool)
      ensures alive
    {
      true
    }

    /** Sends `message`. `failedRecipients` is the by-reference array on entry
        and `failedRecipientsOut` its value on return; `evt` is the event the
        dispatcher created, or null; `response` is what the client does if it
        is called. */
    method Send(message: Message, failedRecipients: Option<FailedRecipients>, evt: SendEvent?, response: ClientResponse)
      returns (sentMails: nat, failedRecipientsOut: Option<FailedRecipients>)
      modifies this, evt
      ensures IsStarted()
      ensures evt != null ==> evt.bubbleCancelled == old(evt.bubbleCancelled)
      ensures var o := SendOutcome(message, failedRecipients, EventStateOf(evt), response);
        && sentMails == o.sent
        && failedRecipientsOut == o.failedRecipients
        && trace == old(trace) + o.steps
      ensures var o := SendOutcome(message, failedRecipients, EventStateOf(evt), response);
        evt != null ==>
          && evt.result == (if o.result.Some? then o.result else old(evt.result))
          && evt.failedRecipients ==
               (if o.eventFailedRecipients.Some? then o.eventFailedRecipients else old(evt.failedRecipients))
    {
      ghost var trace0 := trace;
      if !IsStarted() {
        Start();
      }
      if evt != null {
        trace := trace + [Dispatched(BeforeSendPerformed)];
        if evt.bubbleCancelled {
          return 0, failedRecipients;
        }
      }
      ghost var before := trace[|trace0|..];
      assert trace == trace0 + before;
      var reachedClient;
      sentMails, failedRecipientsOut, reachedClient := Deliver(message, failedRecipients, evt, response);
      ghost var middle := if reachedClient then [Translated, ClientCalled] else [Translated];
      if evt != null {
        trace := trace + [Dispatched(SendPerformed)];
        assert trace == trace0 + ([Dispatched(BeforeSendPerformed)] + middle + [Dispatched(SendPerformed)]);
      } else {
        assert trace == trace0 + middle;
      }
    }

    /** The try and catch blocks of the PHP `send`, once the send was not
        cancelled: translate, call the client, and report the outcome. */
    method Deliver(message: Message, failedRecipients: Option<FailedRecipients>, evt: SendEvent?, response: ClientResponse)
      returns (sentMails: nat, failedRecipientsOut: Option<FailedRecipients>, reachedClient: bool)
      requires evt != null ==> !evt.bubbleCancelled
      modifies this, evt
      ensures started == old(started)
      ensures reachedClient == MessageTranslator.Translation(message).Success?
      ensures trace == old(trace) + if reachedClient then [Translated, ClientCalled] else [Translated]
      ensures evt != null ==> evt.bubbleCancelled == old(evt.bubbleCancelled)
      ensures var o := SendOutcome(message, failedRecipients, EventStateOf(evt), response);
        && sentMails == o.sent
        && failedRecipientsOut == o.failedRecipients
        && (evt != null ==>
              && evt.result == o.result
              && evt.failedRecipients ==
                   (if o.eventFailedRecipients.Some? then o.eventFailedRecipients else old(evt.failedRecipients)))
    {
      sentMails := 0;
      failedRecipientsOut := failedRecipients;
      trace := trace + [Translated];
      var mail := MessageTranslator.Translate(message);
      reachedClient := mail.Success?;
      var threw := !reachedClient;
      if reachedClient {
        trace := trace + [ClientCalled];
        threw := response.Threw?;
      }
      if !threw {
        if IsSuccessful(response.statusCode) {
          sentMails := |message.to| + |message.cc| + |message.bcc|;
          if evt != null {
            evt.result := Some(ResultSuccess);
          }
        } else {
          failedRecipientsOut := Some(FillFailedRecipients(message, failedRecipients));
          if evt != null {
            evt.result := Some(ResultFailed);
            evt.failedRecipients := failedRecipientsOut;
          }
        }
      } else {
        // the catch block of the PHP `send`
        if evt != null {
          evt.result := Some(ResultFailed);
        }
      }
    }
  }
}
