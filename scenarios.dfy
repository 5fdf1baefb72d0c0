/**
 * The repository's unit tests, restated on the model: each scenario builds
 * the test's message and collaborators and states the test's expectations as
 * postconditions. The test client that always succeeds answers like the SDK's
 * default response (status 200); the one that always fails answers 400. The
 * test's event dispatcher is a mock whose event is never cancelled. A Swift
 * message also carries the headers Swift adds itself (Date, Message-ID, ...);
 * the scenarios give it none, since no test looks at them.
 */
module Scenarios {
  import opened Wrappers
  import opened PhpArrays
  import opened SwiftMessage
  import opened SendGridMail
  import opened Transport
  import MessageTranslator

  const SuccessResponse := Responded(200)
  const FailureResponse := Responded(400)

  function Address(email: string): Mailbox {
    Mailbox(email, None)
  }

  /** The tests' message: "The Message" from john@doe.com to jane@doe.com, with a plain-text body. */
  function TestMessage(cc: seq<Mailbox>, bcc: seq<Mailbox>): Message {
    Message(
      from := [Address("john@doe.com")],
      to := [Address("jane@doe.com")],
      cc := cc,
      bcc := bcc,
      subject := "The Message",
      body := "Something really important",
      contentType := "text/plain",
      headers := [])
  }

  const TwoRecipients := [Address("will@smith.com"), Address("bruceLee@kung.fu")]

  method CanBeStarted() returns (started: bool)
    ensures started
  {
    var transport := new SendgridTransport();
    transport.Start();
    started := transport.IsStarted();
  }

  method CanBeStopped() returns (started: bool)
    ensures !started
  {
    var transport := new SendgridTransport();
    transport.Stop();
    started := transport.IsStarted();
  }

  method CanBePinged() returns (alive: bool)
    ensures alive
  {
    var transport := new SendgridTransport();
    alive := transport.Ping();
  }

  /** One recipient is accepted, and each phase is dispatched exactly once, around the client call. */
  method IsAbleToSendMessage() returns (sentMails: nat, ghost calls: seq<Step>)
    ensures sentMails == 1
    ensures calls == [Dispatched(BeforeSendPerformed), Translated, ClientCalled, Dispatched(SendPerformed)]
  {
    var transport := new SendgridTransport();
    var evt := new SendEvent(false);
    var message := TestMessage([], []);
    var failedRecipients;
    sentMails, failedRecipients := transport.Send(message, None, evt, SuccessResponse);
    calls := transport.trace;
  }

  method IsAbleToSendMessageWithCcRecipients() returns (sentMails: nat)
    ensures sentMails == 3
  {
    var transport := new SendgridTransport();
    var evt := new SendEvent(false);
    var failedRecipients;
    sentMails, failedRecipients := transport.Send(TestMessage(TwoRecipients, []), None, evt, SuccessResponse);
  }

  method IsAbleToSendMessageWithBccRecipients() returns (sentMails: nat)
    ensures sentMails == 3
  {
    var transport := new SendgridTransport();
    var evt := new SendEvent(false);
    var failedRecipients;
    sentMails, failedRecipients := transport.Send(TestMessage([], TwoRecipients), None, evt, SuccessResponse);
  }

  /** The failure test's recipients, To then Bcc, and no email among them repeats. */
  lemma FailureTestEmails()
    ensures Emails(AllRecipients(TestMessage([], TwoRecipients))) == ["jane@doe.com", "will@smith.com", "bruceLee@kung.fu"]
    ensures DistinctEmails(AllRecipients(TestMessage([], TwoRecipients)))
  {
    var all := AllRecipients(TestMessage([], TwoRecipients));
    assert all == [Address("jane@doe.com"), Address("will@smith.com"), Address("bruceLee@kung.fu")];
    assert |"jane@doe.com"| == 12 && |"will@smith.com"| == 14 && |"bruceLee@kung.fu"| == 16;
  }

  /** A message whose recipients are those of the failure test, once each,
      fails with those three emails as the failed-recipients keys. */
  lemma ThreeFailedRecipients(m: Message)
    requires Emails(AllRecipients(m)) == ["jane@doe.com", "will@smith.com", "bruceLee@kung.fu"]
    requires DistinctEmails(AllRecipients(m))
    ensures var failed := FillFailedRecipients(m, None);
      |failed| == 3 && StrKeys(failed) == {"jane@doe.com", "will@smith.com", "bruceLee@kung.fu"}
  {
    FailedRecipientsExact(m);
    AddressArrayKeys(AllRecipients(m));
    var emails := Emails(AllRecipients(m));
    assert (set e | e in emails) == {"jane@doe.com", "will@smith.com", "bruceLee@kung.fu"};
  }

  /** A failed send accepts nobody and reports the three recipients as failed, keyed by email. */
  method Returns0InCaseOfSendFailure()
    returns (sentMails: nat, failedRecipients: Option<FailedRecipients>, ghost calls: seq<Step>)
    ensures sentMails == 0
    ensures failedRecipients.Some? && |failedRecipients.value| == 3
    ensures StrKeys(failedRecipients.value) == {"jane@doe.com", "will@smith.com", "bruceLee@kung.fu"}
    ensures calls == [Dispatched(BeforeSendPerformed), Translated, ClientCalled, Dispatched(SendPerformed)]
  {
    FailureTestEmails();
    sentMails, failedRecipients, calls := SendWithFailingClient(TestMessage([], TwoRecipients));
  }

  /** A message with a sender, sent with an event nobody cancels to a client
      answering 400, accepts nobody, reports its recipients as failed and
      makes each call once. */
  lemma FailingClientOutcome(m: Message)
    requires m.from != []
    ensures var o := SendOutcome(m, None, Event(false), FailureResponse);
      && o.sent == 0
      && o.failedRecipients == Some(FillFailedRecipients(m, None))
      && o.steps == [Dispatched(BeforeSendPerformed), Translated, ClientCalled, Dispatched(SendPerformed)]
  {
    assert MessageTranslator.Translation(m).Success?;
    assert Rejected(m, FailureResponse);
  }

  /** The failure test's send, for any message with its sender and recipients. */
  method SendWithFailingClient(message: Message)
    returns (sentMails: nat, failedRecipients: Option<FailedRecipients>, ghost calls: seq<Step>)
    requires message.from != []
    requires Emails(AllRecipients(message)) == ["jane@doe.com", "will@smith.com", "bruceLee@kung.fu"]
    requires DistinctEmails(AllRecipients(message))
    ensures sentMails == 0
    ensures failedRecipients.Some? && |failedRecipients.value| == 3
    ensures StrKeys(failedRecipients.value) == {"jane@doe.com", "will@smith.com", "bruceLee@kung.fu"}
    ensures failedRecipients == Some(AddressArray(AllRecipients(message)))
    ensures calls == [Dispatched(BeforeSendPerformed), Translated, ClientCalled, Dispatched(SendPerformed)]
  {
    var transport := new SendgridTransport();
    var evt := new SendEvent(false);
    sentMails, failedRecipients := transport.Send(message, None, evt, FailureResponse);
    calls := transport.trace;
    assert EventStateOf(evt) == Event(false);
    FailingClientOutcome(message);
    ThreeFailedRecipients(message);
    FailedRecipientsExact(message);
  }

  /** The request carries the subject, the sender, the body and the To and Bcc addresses in order. */
  method CanTranslateSwiftMessage() returns (request: Option<Request>)
    ensures request.Some?
    ensures request.value.subject == Some("The Message")
    ensures request.value.from.Some? && request.value.from.value.email == "john@doe.com"
    ensures request.value.contents == [Content("text/plain", "Something really important")]
    ensures request.value.tos == Some([EmailAddress("jane@doe.com", None)])
    ensures request.value.ccs.None?
    ensures request.value.bccs == Some([EmailAddress("will@smith.com", None), EmailAddress("bruceLee@kung.fu", None)])
  {
    var m := TestMessage([], TwoRecipients);
    assert MessageTranslator.AddressList(m.to) == [EmailAddress("jane@doe.com", None)];
    assert MessageTranslator.AddressList(m.bcc) ==
      [EmailAddress("will@smith.com", None), EmailAddress("bruceLee@kung.fu", None)];
    assert [] + MessageTranslator.AddressList(m.to) == MessageTranslator.AddressList(m.to);
    assert [] + MessageTranslator.AddressList(m.bcc) == MessageTranslator.AddressList(m.bcc);
    var r := MessageTranslator.Translate(m);
    if r.Success? {
      request := Some(r.value.AsRequest());
    } else {
      request := None;
    }
  }
}
