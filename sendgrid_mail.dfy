/**
 * The request object of the SendGrid SDK (`SendGrid\Mail\Mail`), reduced to
 * what the translator sets on it. Its constructors' validation, the grouping
 * of recipients into personalization blocks and its JSON form belong to the
 * SDK and are not part of this model: `AsRequest()` is the object's content as
 * the translator built it.
 */
module SendGridMail {
  import opened Wrappers

  datatype EmailAddress = EmailAddress(email: string, name: Option<string>)

  datatype Content = Content(contentType: string, value: string)

  datatype Header = Header(key: string, value: string)

  /** The content of a `Mail`; an address list that was never added is None (absent from the request). */
  datatype Request = Request(
    from: Option<EmailAddress>,
    subject: Option<string>,
    contents: seq<Content>,
    tos: Option<seq<EmailAddress>>,
    ccs: Option<seq<EmailAddress>>,
    bccs: Option<seq<EmailAddress>>,
    headers: seq<Header>)

  const EmptyRequest := Request(None, None, [], None, None, None, [])

  /** An address list after `list` has been added to it. */
  function Added(field: Option<seq<EmailAddress>>, list: seq<EmailAddress>): seq<EmailAddress> {
    field.GetOr([]) + list
  }

  class Mail {
    var from: Option<EmailAddress>
    var subject: Option<string>
    var contents: seq<Content>
    var tos: Option<seq<EmailAddress>>
    var ccs: Option<seq<EmailAddress>>
    var bccs: Option<seq<EmailAddress>>
    var headers: seq<Header>

    function AsRequest(): Request
      reads this
    {
      Request(from, subject, contents, tos, ccs, bccs, headers)
    }

    constructor ()
      ensures AsRequest() == EmptyRequest
    {
      from, subject, contents := None, None, [];
      tos, ccs, bccs, headers := None, None, None, [];
    }

    method SetFrom(address: EmailAddress)
      modifies this
      ensures AsRequest() == old(AsRequest()).(from := Some(address))
    {
      from := Some(address);
    }

    method SetSubject(s: string)
      modifies this
      ensures AsRequest() == old(AsRequest()).(subject := Some(s))
    {
      subject := Some(s);
    }

    method AddContent(contentType: string, value: string)
      modifies this
      ensures AsRequest() == old(AsRequest()).(contents := old(contents) + [Content(contentType, value)])
    {
      contents := contents + [Content(contentType, value)];
    }

    method AddTos(list: seq<EmailAddress>)
      modifies this
      ensures AsRequest() == old(AsRequest()).(tos := Some(Added(old(tos), list)))
    {
      tos := Some(Added(tos, list));
    }

    method AddCcs(list: seq<EmailAddress>)
      modifies this
      ensures AsRequest() == old(AsRequest()).(ccs := Some(Added(old(ccs), list)))
    {
      ccs := Some(Added(ccs, list));
    }

    method AddBccs(list: seq<EmailAddress>)
      modifies this
      ensures AsRequest() == old(AsRequest()).(bccs := Some(Added(old(bccs), list)))
    {
      bccs := Some(Added(bccs, list));
    }

    method AddHeader(key: string, value: string)
      modifies this
      ensures AsRequest() == old(AsRequest()).(headers := old(headers) + [Header(key, value)])
    {
      headers := headers + [Header(key, value)];
    }
  }
}
