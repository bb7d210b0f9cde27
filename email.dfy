/** The email message of the Coresender SDK (com.coresender.sdk.data.Email):
    an immutable record of addresses, subject and sending options, built by a
    fluent EmailBuilder, whose content (Body) is a mutable object shared by
    reference between the builder and every Email it has built. */
module EmailData {
  import opened Wrappers

  /** Email.Address: an address and an optional display name. */
  datatype Address = Address(email: Nullable<string>, name: Nullable<string>)

  /** Address.of(email, name): keeps both values as given; nothing is validated. */
  function AddressOfNamed(email: Nullable<string>, name: Nullable<string>): (a: Address)
    ensures a.email == email && a.name == name
  {
    Address(email, name)
  }

  /** Address.of(email): the named form with no display name. */
  function AddressOf(email: Nullable<string>): (a: Address)
    ensures a == AddressOfNamed(email, Null)
    ensures a.email == email && a.name == Null
  {
    Address(email, Null)
  }

  /** Email.Body: the text and HTML versions of the content, updated in place. */
  class Body {
    var text: Nullable<string>
    var html: Nullable<string>

    constructor ()
      ensures text == Null && html == Null
    {
      text := Null;
      html := Null;
    }

    method SetText(text: Nullable<string>)
      modifies this
      ensures this.text == text && html == old(html)
    {
      this.text := text;
    }

    method SetHtml(html: Nullable<string>)
      modifies this
      ensures this.html == html && text == old(text)
    {
      this.html := html;
    }
  }

  /** A built Email. The three fields the constructor checks are non-null by
      type; body is a reference to the builder's Body object. Each field is
      the value of the getter of the same name. */
  datatype Email = Email(
    body: Body,
    from: Address,
    to: seq<Address>,
    subject: string,
    customId: Nullable<string>,
    customIdUnique: bool,
    trackOpens: bool,
    trackClicks: bool,
    listId: Nullable<string>,
    listUnsubscribe: Nullable<string>,
    replyTo: Nullable<seq<Address>>)

  /** The values the EmailBuilder holds besides its body, which are also the
      arguments of Email's constructor besides the body. */
  datatype Draft = Draft(
    from: Nullable<Address>,
    to: Nullable<seq<Address>>,
    subject: Nullable<string>,
    customId: Nullable<string>,
    customIdUnique: bool,
    trackOpens: bool,
    trackClicks: bool,
    listId: Nullable<string>,
    listUnsubscribe: Nullable<string>,
    replyTo: Nullable<seq<Address>>)

  /** The field values of a new builder: Java's defaults, false and null. */
  const EmptyDraft: Draft :=
    Draft(Null, Null, Null, Null, false, false, false, Null, Null, Null)

  const FromNull: string := NullMessage("from")
  const ToNull: string := NullMessage("to")
  const SubjectNull: string := NullMessage("subject")
  const ReplyToNull: string := NullMessage("replyTo")

  /** What the getters of an Email report, in the builder's terms. */
  function DraftOf(e: Email): (d: Draft)
  {
    Draft(NonNull(e.from), NonNull(e.to), NonNull(e.subject), e.customId, e.customIdUnique,
          e.trackOpens, e.trackClicks, e.listId, e.listUnsubscribe, e.replyTo)
  }

  /** Email's private constructor: it throws when from, to or subject is
      null, checking them in that order, and otherwise keeps every argument,
      including the body reference, as it is. */
  function NewEmail(body: Body, d: Draft): (r: Result<Email>)
    ensures r.Success? <==> d.from.NonNull? && d.to.NonNull? && d.subject.NonNull?
    ensures d.from.Null? ==> r == Failure(IllegalArgument(FromNull))
    ensures d.from.NonNull? && d.to.Null? ==> r == Failure(IllegalArgument(ToNull))
    ensures d.from.NonNull? && d.to.NonNull? && d.subject.Null? ==>
              r == Failure(IllegalArgument(SubjectNull))
    ensures r.Success? ==> r.value.body == body && DraftOf(r.value) == d
  {
    if d.from.Null? then Failure(IllegalArgument(FromNull))
    else if d.to.Null? then Failure(IllegalArgument(ToNull))
    else if d.subject.Null? then Failure(IllegalArgument(SubjectNull))
    else Success(Email(body, d.from.value, d.to.value, d.subject.value, d.customId,
                       d.customIdUnique, d.trackOpens, d.trackClicks, d.listId,
                       d.listUnsubscribe, d.replyTo))
  }

  /** Every Email is exactly what its constructor makes of its own body and
      getter values: the getters lose nothing. */
  lemma EmailFromOwnGetters(e: Email)
    ensures NewEmail(e.body, DraftOf(e)) == Success(e)
  {
  }

  /** Email.EmailBuilder: fields overwritten one setter at a time. */
  class EmailBuilder {
    const body: Body
    var from: Nullable<Address>
    var to: Nullable<seq<Address>>
    var subject: Nullable<string>
    var customId: Nullable<string>
    var customIdUnique: bool
    var trackOpens: bool
    var trackClicks: bool
    var listId: Nullable<string>
    var listUnsubscribe: Nullable<string>
    var replyTo: Nullable<seq<Address>>

    /** The builder's fields besides the body. */
    function Current(): (d: Draft)
      reads this
    {
      Draft(from, to, subject, customId, customIdUnique, trackOpens, trackClicks,
            listId, listUnsubscribe, replyTo)
    }

    constructor ()
      ensures fresh(body) && body.text == Null && body.html == Null
      ensures Current() == EmptyDraft
    {
      body := new Body();
      from, to, subject, customId := Null, Null, Null, Null;
      customIdUnique, trackOpens, trackClicks := false, false, false;
      listId, listUnsubscribe, replyTo := Null, Null, Null;
    }

    method BodyText(text: Nullable<string>)
      modifies body
      ensures body.text == text && body.html == old(body.html)
      ensures Current() == old(Current())
    {
      body.SetText(text);
    }

    method BodyHtml(html: Nullable<string>)
      modifies body
      ensures body.html == html && body.text == old(body.text)
      ensures Current() == old(Current())
    {
      body.SetHtml(html);
    }

    method From(from: Nullable<Address>) returns (r: Outcome)
      modifies this
      ensures r == if from.Null? then Threw(IllegalArgument(FromNull)) else Returned
      ensures Current() == if from.Null? then old(Current()) else old(Current()).(from := from)
      ensures body.text == old(body.text) && body.html == old(body.html)
    {
      if from.Null? {
        return Threw(IllegalArgument(FromNull));
      }
      this.from := from;
      r := Returned;
    }

    method To(to: Nullable<seq<Address>>) returns (r: Outcome)
      modifies this
      ensures r == if to.Null? then Threw(IllegalArgument(ToNull)) else Returned
      ensures Current() == if to.Null? then old(Current()) else old(Current()).(to := to)
      ensures body.text == old(body.text) && body.html == old(body.html)
    {
      if to.Null? {
        return Threw(IllegalArgument(ToNull));
      }
      this.to := to;
      r := Returned;
    }

    method Subject(subject: Nullable<string>) returns (r: Outcome)
      modifies this
      ensures r == if subject.Null? then Threw(IllegalArgument(SubjectNull)) else Returned
      ensures Current() == if subject.Null? then old(Current()) else old(Current()).(subject := subject)
      ensures body.text == old(body.text) && body.html == old(body.html)
    {
      if subject.Null? {
        return Threw(IllegalArgument(SubjectNull));
      }
      this.subject := subject;
      r := Returned;
    }

    method CustomId(customId: Nullable<string>)
      modifies this
      ensures Current() == old(Current()).(customId := customId)
      ensures body.text == old(body.text) && body.html == old(body.html)
    {
      this.customId := customId;
    }

    method CustomIdUnique(customIdUnique: bool)
      modifies this
      ensures Current() == old(Current()).(customIdUnique := customIdUnique)
      ensures body.text == old(body.text) && body.html == old(body.html)
    {
      this.customIdUnique := customIdUnique;
    }

    method TrackOpens(trackOpens: bool)
      modifies this
      ensures Current() == old(Current()).(trackOpens := trackOpens)
      ensures body.text == old(body.text) && body.html == old(body.html)
    {
      this.trackOpens := trackOpens;
    }

    method TrackClicks(trackClicks: bool)
      modifies this
      ensures Current() == old(Current()).(trackClicks := trackClicks)
      ensures body.text == old(body.text) && body.html == old(body.html)
    {
      this.trackClicks := trackClicks;
    }

    method ListId(listId: Nullable<string>)
      modifies this
      ensures Current() == old(Current()).(listId := listId)
      ensures body.text == old(body.text) && body.html == old(body.html)
    {
      this.listId := listId;
    }

    method ListUnsubscribe(listUnsubscribe: Nullable<string>)
      modifies this
      ensures Current() == old(Current()).(listUnsubscribe := listUnsubscribe)
      ensures body.text == old(body.text) && body.html == old(body.html)
    {
      this.listUnsubscribe := listUnsubscribe;
    }

    method ReplyTo(replyTo: Nullable<seq<Address>>) returns (r: Outcome)
      modifies this
      ensures r == if replyTo.Null? then Threw(IllegalArgument(ReplyToNull)) else Returned
      ensures Current() == if replyTo.Null? then old(Current()) else old(Current()).(replyTo := replyTo)
      ensures body.text == old(body.text) && body.html == old(body.html)
    {
      if replyTo.Null? {
        return Threw(IllegalArgument(ReplyToNull));
      }
      this.replyTo := replyTo;
      r := Returned;
    }

    /** build(): hands the builder's current values and its own Body object to
        Email's constructor; the builder itself is left as it was. */
    method Build() returns (r: Result<Email>)
      ensures r == NewEmail(body, Current())
      ensures r.Success? ==> r.value.body == body && DraftOf(r.value) == Current()
    {
      r := NewEmail(body, Current());
    }
  }

  /** A builder given only from, to and subject builds an email whose
      optional fields keep their defaults: no custom id, list id, unsubscribe
      list or reply-to (replyTo is optional although its setter rejects null),
      all three flags false, and an empty body. */
  method BuildRequiredOnly(from: Address, to: seq<Address>, subject: string) returns (r: Result<Email>)
    ensures r.Success?
    ensures DraftOf(r.value) ==
              EmptyDraft.(from := NonNull(from), to := NonNull(to), subject := NonNull(subject))
    ensures fresh(r.value.body) && r.value.body.text == Null && r.value.body.html == Null
  {
    var b := new EmailBuilder();
    var thrown := b.From(NonNull(from));
    thrown := b.To(NonNull(to));
    thrown := b.Subject(NonNull(subject));
    r := b.Build();
  }

  /** A builder on which no setter was called fails to build, and the first
      check, on from, is the one reported. */
  method BuildWithoutRequired() returns (r: Result<Email>)
    ensures r == Failure(IllegalArgument(FromNull))
  {
    var b := new EmailBuilder();
    r := b.Build();
  }

  /** The Body is shared, not copied: setting the text on the builder after
      build() changes what the earlier Email's body holds. */
  method EditBodyAfterBuild(b: EmailBuilder, text: Nullable<string>) returns (r: Result<Email>)
    modifies b.body
    ensures r == NewEmail(b.body, b.Current())
    ensures r.Success? ==> r.value.body.text == text
  {
    r := b.Build();
    b.BodyText(text);
  }
}
