/**
 * The parts of a Swift Mailer message that the adapter reads.
 *
 * Swift keeps each address field as a PHP array from email address to display
 * name (null when the address has none), in insertion order; a field that was
 * never set reads as null, which every reader in the adapter treats exactly
 * like an empty array, so both are the empty sequence here.
 */
module SwiftMessage {
  import opened Wrappers
  import opened PhpArrays

  datatype Mailbox = Mailbox(email: string, name: Option<string>)

  /** A header as the adapter reads it: field name and rendered field body. */
  datatype MimeHeader = MimeHeader(fieldName: string, fieldBody: string)

  datatype Message = Message(
    from: seq<Mailbox>,
    to: seq<Mailbox>,
    cc: seq<Mailbox>,
    bcc: seq<Mailbox>,
    subject: string,
    body: string,
    contentType: string,
    headers: seq<MimeHeader>)
  {
    /** Swift keys every address field by email, so no field repeats an email. */
    predicate Valid() {
      DistinctEmails(from) && DistinctEmails(to) && DistinctEmails(cc) && DistinctEmails(bcc)
    }
  }

  predicate DistinctEmails(list: seq<Mailbox>) {
    forall i, j :: 0 <= i < j < |list| ==> list[i].email != list[j].email
  }

  /** The email addresses of `list`, in order. */
  function Emails(list: seq<Mailbox>): (r: seq<string>)
    ensures |r| == |list| && forall i :: 0 <= i < |list| ==> r[i] == list[i].email
  {
    if list == [] then [] else [list[0].email] + Emails(list[1..])
  }

  /** An address field as the PHP array `(array)$message->getTo()` (or Cc, Bcc). */
  function AddressArray(list: seq<Mailbox>): (r: PhpArray<Option<string>>)
    ensures |r| == |list|
    ensures forall i :: 0 <= i < |list| ==> r[i] == Entry(StrKey(list[i].email), list[i].name)
  {
    if list == [] then [] else [Entry(StrKey(list[0].email), list[0].name)] + AddressArray(list[1..])
  }

  /** The string keys of an address field's array are its emails, and it has no integer keys. */
  lemma {:induction false} AddressArrayKeys(list: seq<Mailbox>)
    ensures StrKeys(AddressArray(list)) == set e | e in Emails(list)
    ensures IntValues(AddressArray(list)) == []
  {
    if list != [] {
      AddressArrayKeys(list[1..]);
      assert AddressArray(list)[1..] == AddressArray(list[1..]);
      assert Emails(list) == [list[0].email] + Emails(list[1..]);
    }
  }

  lemma AddressArrayConcat(x: seq<Mailbox>, y: seq<Mailbox>)
    ensures AddressArray(x + y) == AddressArray(x) + AddressArray(y)
  {
  }
}
