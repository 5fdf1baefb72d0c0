/**
 * SwiftToSendGridMessageTranslator: builds a SendGrid request from a Swift
 * message, field by field. `Translation` states the request that comes out;
 * `Translate` and the `Handle*` methods build it in place, with the loops of
 * the PHP `handleTo`, `handleCc`, `handleBcc` and `handleHeaders`,
 * and are proved to produce exactly `Translation`.
 */
module MessageTranslator {
  import opened Wrappers
  import opened SwiftMessage
  import opened SendGridMail

  /** Why the request could not be built: the SDK rejects a message without a sender. */
  datatype TranslationError = MissingSender

  /** The SDK address for one Swift address-map entry (`new To($email, $name)`). */
  function ToEmailAddress(m: Mailbox): EmailAddress {
    EmailAddress(m.email, m.name)
  }

  /** The SDK addresses for an address field, entry by entry. */
  function AddressList(list: seq<Mailbox>): (r: seq<EmailAddress>)
    ensures |r| == |list|
    ensures forall i :: 0 <= i < |list| ==> r[i].email == list[i].email && r[i].name == list[i].name
  {
    if list == [] then [] else [ToEmailAddress(list[0])] + AddressList(list[1..])
  }

  /** The SDK headers for the message's headers, one per header, in order. */
  function HeaderList(headers: seq<MimeHeader>): (r: seq<Header>)
    ensures |r| == |headers|
    ensures forall i :: 0 <= i < |headers| ==>
      r[i].key == headers[i].fieldName && r[i].value == headers[i].fieldBody
  {
    if headers == [] then [] else [Header(headers[0].fieldName, headers[0].fieldBody)] + HeaderList(headers[1..])
  }

  /** The request's address list for one field: absent when the field is empty,
      otherwise the same length as the field with the i-th entry made of the
      i-th email and its name. */
  predicate Mirrors(field: Option<seq<EmailAddress>>, list: seq<Mailbox>) {
    && (field.None? <==> list == [])
    && (field.Some? ==>
          |field.value| == |list| &&
          forall i :: 0 <= i < |list| ==>
            field.value[i].email == list[i].email && field.value[i].name == list[i].name)
  }

  /** An address field of the request after the translator has handled `list`:
      left as it was when `list` is empty, otherwise extended by its addresses. */
  function WithRecipients(field: Option<seq<EmailAddress>>, list: seq<Mailbox>): Option<seq<EmailAddress>> {
    if list == [] then field else Some(Added(field, AddressList(list)))
  }

  /** The request built for message `m`. */
  function Translation(m: Message): (r: Result<Request, TranslationError>)
    ensures r.Failure? <==> m.from == []
    ensures r.Success? ==>
      var q := r.value;
      && q.from == Some(EmailAddress(m.from[0].email, m.from[0].name))
      && q.subject == Some(m.subject)
      && q.contents == [Content(m.contentType, m.body)]
      && Mirrors(q.tos, m.to) && Mirrors(q.ccs, m.cc) && Mirrors(q.bccs, m.bcc)
      && |q.headers| == |m.headers|
      && (forall i :: 0 <= i < |m.headers| ==>
            q.headers[i] == Header(m.headers[i].fieldName, m.headers[i].fieldBody))
  {
    if m.from == [] then Failure(MissingSender)
    else
      Success(Request(
        from := Some(ToEmailAddress(m.from[0])),
        subject := Some(m.subject),
        contents := [Content(m.contentType, m.body)],
        tos := WithRecipients(None, m.to),
        ccs := WithRecipients(None, m.cc),
        bccs := WithRecipients(None, m.bcc),
        headers := HeaderList(m.headers)))
  }

  lemma {:induction false} AddressListConcat(x: seq<Mailbox>, y: seq<Mailbox>)
    ensures AddressList(x + y) == AddressList(x) + AddressList(y)
  {
    if x == [] {
      assert x + y == y;
    } else {
      var h := [ToEmailAddress(x[0])];
      assert (x + y)[0] == x[0];
      assert (x + y)[1..] == x[1..] + y;
      AddressListConcat(x[1..], y);
      calc {
        AddressList(x + y);
        h + AddressList(x[1..] + y);
        h + (AddressList(x[1..]) + AddressList(y));
        (h + AddressList(x[1..])) + AddressList(y);
      }
    }
  }

  lemma AddressListSnoc(list: seq<Mailbox>, k: nat)
    requires k < |list|
    ensures AddressList(list[..k + 1]) == AddressList(list[..k]) + [ToEmailAddress(list[k])]
  {
    assert list[..k + 1] == list[..k] + [list[k]];
    AddressListConcat(list[..k], [list[k]]);
    assert AddressList([list[k]]) == [ToEmailAddress(list[k])] + AddressList([]);
  }

  /** Adds the To list of `m` to `mail`, when it has one. */
  method HandleTo(m: Message, mail: Mail)
    modifies mail
    ensures mail.AsRequest() ==
      old(mail.AsRequest()).(tos := WithRecipients(old(mail.tos), m.to))
  {
    var to := m.to;
    if to != [] {
      var toAddresses: seq<EmailAddress> := [];
      var k := 0;
      while k < |to|
        invariant 0 <= k <= |to|
        invariant toAddresses == AddressList(to[..k])
        invariant unchanged(mail)
      {
        AddressListSnoc(to, k);
        toAddresses := toAddresses + [ToEmailAddress(to[k])];
        k := k + 1;
      }
      assert to[..k] == to;
      mail.AddTos(toAddresses);
    } else {
      assert WithRecipients(mail.tos, to) == mail.tos;
    }
  }

  /** Adds the Cc list of `m` to `mail`, when it has one. */
  method HandleCc(m: Message, mail: Mail)
    modifies mail
    ensures mail.AsRequest() ==
      old(mail.AsRequest()).(ccs := WithRecipients(old(mail.ccs), m.cc))
  {
    var cc := m.cc;
    if cc != [] {
      var ccAddresses: seq<EmailAddress> := [];
      var k := 0;
      while k < |cc|
        invariant 0 <= k <= |cc|
        invariant ccAddresses == AddressList(cc[..k])
        invariant unchanged(mail)
      {
        AddressListSnoc(cc, k);
        ccAddresses := ccAddresses + [ToEmailAddress(cc[k])];
        k := k + 1;
      }
      assert cc[..k] == cc;
      mail.AddCcs(ccAddresses);
    } else {
      assert WithRecipients(mail.ccs, cc) == mail.ccs;
    }
  }

  /** Adds the Bcc list of `m` to `mail`, when it has one. */
  method HandleBcc(m: Message, mail: Mail)
    modifies mail
    ensures mail.AsRequest() ==
      old(mail.AsRequest()).(bccs := WithRecipients(old(mail.bccs), m.bcc))
  {
    var bcc := m.bcc;
    if bcc != [] {
      var bccAddresses: seq<EmailAddress> := [];
      var k := 0;
      while k < |bcc|
        invariant 0 <= k <= |bcc|
        invariant bccAddresses == AddressList(bcc[..k])
        invariant unchanged(mail)
      {
        AddressListSnoc(bcc, k);
        bccAddresses := bccAddresses + [ToEmailAddress(bcc[k])];
        k := k + 1;
      }
      assert bcc[..k] == bcc;
      mail.AddBccs(bccAddresses);
    } else {
      assert WithRecipients(mail.bccs, bcc) == mail.bccs;
    }
  }

  lemma {:induction false} HeaderListConcat(x: seq<MimeHeader>, y: seq<MimeHeader>)
    ensures HeaderList(x + y) == HeaderList(x) + HeaderList(y)
  {
    if x == [] {
      assert x + y == y;
    } else {
      var h := [Header(x[0].fieldName, x[0].fieldBody)];
      assert (x + y)[0] == x[0];
      assert (x + y)[1..] == x[1..] + y;
      HeaderListConcat(x[1..], y);
      calc {
        HeaderList(x + y);
        h + HeaderList(x[1..] + y);
        h + (HeaderList(x[1..]) + HeaderList(y));
        (h + HeaderList(x[1..])) + HeaderList(y);
      }
    }
  }

  lemma HeaderListSnoc(headers: seq<MimeHeader>, k: nat)
    requires k < |headers|
    ensures HeaderList(headers[..k + 1]) ==
      HeaderList(headers[..k]) + [Header(headers[k].fieldName, headers[k].fieldBody)]
  {
    assert headers[..k + 1] == headers[..k] + [headers[k]];
    HeaderListConcat(headers[..k], [headers[k]]);
    assert HeaderList([headers[k]]) == [Header(headers[k].fieldName, headers[k].fieldBody)] + HeaderList([]);
  }

  /** Copies every header of `m` onto `mail`, in order. */
  method HandleHeaders(m: Message, mail: Mail)
    modifies mail
    ensures mail.AsRequest() == old(mail.AsRequest()).(headers := old(mail.headers) + HeaderList(m.headers))
  {
    ghost var prior := mail.AsRequest();
    var headers := m.headers;
    if headers != [] {
      var k := 0;
      while k < |headers|
        invariant 0 <= k <= |headers|
        invariant mail.AsRequest() == prior.(headers := prior.headers + HeaderList(headers[..k]))
      {
        var h := Header(headers[k].fieldName, headers[k].fieldBody);
        HeaderListSnoc(headers, k);
        assert (prior.headers + HeaderList(headers[..k])) + [h] == prior.headers + HeaderList(headers[..k + 1]);
        mail.AddHeader(headers[k].fieldName, headers[k].fieldBody);
        k := k + 1;
      }
      assert headers[..k] == headers;
    } else {
      assert prior.headers + HeaderList(headers) == prior.headers;
    }
  }

  /** Builds the request for `m`; fails, as the SDK does, when `m` has no sender. */
  method Translate(m: Message) returns (r: Result<Mail, TranslationError>)
    ensures r.Failure? <==> Translation(m).Failure?
    ensures r.Failure? ==> r.error == Translation(m).error
    ensures r.Success? ==> fresh(r.value) && r.value.AsRequest() == Translation(m).value
  {
    var fromArray := m.from;
    if fromArray == [] {
      return Failure(MissingSender);
    }
    var mail := new Mail();
    mail.SetFrom(ToEmailAddress(fromArray[0]));
    mail.SetSubject(m.subject);
    mail.AddContent(m.contentType, m.body);
    HandleTo(m, mail);
    HandleCc(m, mail);
    HandleBcc(m, mail);
    HandleHeaders(m, mail);
    assert [] + AddressList(m.to) == AddressList(m.to);
    assert [] + AddressList(m.cc) == AddressList(m.cc);
    assert [] + AddressList(m.bcc) == AddressList(m.bcc);
    assert [] + HeaderList(m.headers) == HeaderList(m.headers);
    return Success(mail);
  }
}
