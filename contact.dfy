/**
 * The contact form (`Contact`): four text fields, a fail-fast validation
 * chain, and a submit handler that clears the form only when the backend
 * reports success.  The reply to the POST arrives as a parameter.
 */
module Contact {
  import opened Common
  import opened Text

  datatype ContactError =
    | MissingName | MissingEmail | InvalidEmail | MissingMessage | MessageTooShort
  {
    function Message(): string {
      match this
      case MissingName => "Please enter your name"
      case MissingEmail => "Please enter your email"
      case InvalidEmail => "Please enter a valid email address"
      case MissingMessage => "Please enter your message"
      case MessageTooShort => "Message should be at least 10 characters long"
    }
  }

  /** The shortest accepted message, in UTF-16 units of its trimmed text. */
  const MinMessageLength: nat := 10

  /** `validateForm()`; the WhatsApp number takes no part in it. */
  function Validate(name: string, email: string, message: string): Option<ContactError> {
    if Trim(name) == "" then Some(MissingName)
    else if Trim(email) == "" then Some(MissingEmail)
    else if !Includes(email, "@") then Some(InvalidEmail)
    else if Trim(message) == "" then Some(MissingMessage)
    else if Utf16Length(Trim(message)) < MinMessageLength then Some(MessageTooShort)
    else None
  }

  /** The chain stated without `trim` where `trim` only tests for emptiness:
      a blank name, a blank email, an email without '@', a blank message, then
      a trimmed message shorter than ten units. */
  lemma ValidateByBlankness(name: string, email: string, message: string)
    ensures Validate(name, email, message) ==
      if IsBlank(name) then Some(MissingName)
      else if IsBlank(email) then Some(MissingEmail)
      else if '@' !in email then Some(InvalidEmail)
      else if IsBlank(message) then Some(MissingMessage)
      else if Utf16Length(Trim(message)) < MinMessageLength then Some(MessageTooShort)
      else None
  {
    TrimEmptyIffBlank(name);
    TrimEmptyIffBlank(email);
    TrimEmptyIffBlank(message);
    IncludesChar(email, '@');
    assert "@" == ['@'];
  }

  /** The form passes exactly when name and email are not blank, the email has
      an '@' and the trimmed message has at least ten units; the separate blank
      message check only chooses which error is reported. */
  lemma AcceptedIff(name: string, email: string, message: string)
    ensures Validate(name, email, message).None? <==>
              !IsBlank(name) && !IsBlank(email) && '@' in email
              && Utf16Length(Trim(message)) >= MinMessageLength
  {
    ValidateByBlankness(name, email, message);
    TrimEmptyIffBlank(message);
  }

  /** The length bound is inclusive: with a valid name and email, a trimmed
      message of ten units passes and one of nine is too short. */
  lemma MessageLengthBoundary(name: string, email: string, message: string)
    requires !IsBlank(name) && !IsBlank(email) && '@' in email
    ensures Utf16Length(Trim(message)) == 10 ==> Validate(name, email, message).None?
    ensures Utf16Length(Trim(message)) == 9 ==> Validate(name, email, message) == Some(MessageTooShort)
  {
    ValidateByBlankness(name, email, message);
    TrimEmptyIffBlank(message);
  }

  /** Whitespace around the message does not count towards its length: a
      padded message is judged as the message itself. */
  lemma PaddingDoesNotCount(name: string, email: string, pad: string, body: string, pad2: string)
    requires IsBlank(pad) && IsBlank(pad2)
    requires body != [] && !IsWhitespace(body[0]) && !IsWhitespace(body[|body| - 1])
    ensures Validate(name, email, pad + body + pad2) == Validate(name, email, body)
  {
    TrimDropsPadding(pad, body, pad2);
    TrimDropsPadding([], body, []);
    assert [] + body + [] == body;
  }

  /** What the handler posts: the four fields as typed, untrimmed. */
  datatype ContactRequest = ContactRequest(name: string, email: string, whatsappNo: string, message: string)

  datatype Submission = Rejected(error: ContactError) | Posted(request: ContactRequest)

  const MessageSent: string := "Message sent successfully! We'll get back to you soon. \U{1F4E7}"
  const SendFailed: string := "Failed to send message"
  const Unreachable: string := "Something went wrong. Please try again."

  /** The toast for the reply to a posted message: success only for a reply
      that says so; a refusal shows the server's message when it has one and a
      thrown error the message of its response body when it has one. */
  function ReplyToast(reply: Reply): (t: Toast)
    ensures t.Success? <==> Succeeded(reply)
    ensures Succeeded(reply) ==> t.text == MessageSent
    ensures reply.Answered? && !reply.success ==> t.text == MessageOr(reply.message, SendFailed)
    ensures reply.Threw? ==> t.text == MessageOr(reply.responseMessage, Unreachable)
  {
    match reply
    case Answered(success, message) =>
      if success then Success(MessageSent) else Error(MessageOr(message, SendFailed))
    case Threw(responseMessage) => Error(MessageOr(responseMessage, Unreachable))
  }

  datatype ContactField = Name | Email | WhatsAppNo | MessageText

  class ContactPage {
    var name: string
    var email: string
    var whatsappNo: string
    var message: string
    var loading: bool

    constructor ()
      ensures name == "" && email == "" && whatsappNo == "" && message == "" && !loading
    {
      name, email, whatsappNo, message := "", "", "", "";
      loading := false;
    }

    /** The `onChange` of one input: that field takes the typed value. */
    method Edit(field: ContactField, value: string)
      modifies this
      ensures name == (if field == Name then value else old(name))
      ensures email == (if field == Email then value else old(email))
      ensures whatsappNo == (if field == WhatsAppNo then value else old(whatsappNo))
      ensures message == (if field == MessageText then value else old(message))
      ensures loading == old(loading)
    {
      match field
      case Name => name := value;
      case Email => email := value;
      case WhatsAppNo => whatsappNo := value;
      case MessageText => message := value;
    }

    /** `handleSubmit`.  A failed validation posts nothing, reports its error
        and changes nothing.  Otherwise the four fields are posted as typed; a
        success clears all four, a refusal or a thrown error keeps them, and
        `loading` ends false on every path that posted. */
    method Submit(reply: Reply) returns (r: Submission, t: Toast)
      modifies this
      ensures Validate(old(name), old(email), old(message)).Some? ==>
                r == Rejected(Validate(old(name), old(email), old(message)).value)
                && t == Error(r.error.Message())
                && name == old(name) && email == old(email) && whatsappNo == old(whatsappNo)
                && message == old(message) && loading == old(loading)
      ensures Validate(old(name), old(email), old(message)).None? ==>
                r == Posted(ContactRequest(old(name), old(email), old(whatsappNo), old(message)))
                && t == ReplyToast(reply) && !loading
      ensures r.Posted? && Succeeded(reply) ==>
                name == "" && email == "" && whatsappNo == "" && message == ""
      ensures r.Posted? && !Succeeded(reply) ==>
                name == old(name) && email == old(email) && whatsappNo == old(whatsappNo)
                && message == old(message)
    {
      var v := Validate(name, email, message);
      if v.Some? {
        r := Rejected(v.value);
        t := Error(v.value.Message());
        return;
      }
      loading := true;
      r := Posted(ContactRequest(name, email, whatsappNo, message));
      if Succeeded(reply) {
        name, email, whatsappNo, message := "", "", "", "";
      }
      t := ReplyToast(reply);
      loading := false;
    }
  }
}
