/**
 * The admin form for a new product (`AddMango`): the checks on the chosen
 * image file, the check of the form before the request, and the submit
 * handler that clears the form only on success.  Reading the file into a data
 * URL is browser I/O: its result arrives as a parameter.
 */
module AddNewMango {
  import opened Common
  import opened Text

  // ---------------------------------------------------------------------------
  // The image file

  /** The part of a chosen `File` the checks look at. */
  datatype ChosenFile = ChosenFile(mimeType: string, size: int)

  datatype FileError = NoFile | NotAnImage | TooLarge {
    function Message(): string {
      match this
      case NoFile => "Please select an image file"
      case NotAnImage => "Please select a valid image file"
      case TooLarge => "Image size should be less than 5MB"
    }
  }

  /** `5 * 1024 * 1024` bytes. */
  const MaxImageBytes: int := 5 * 1024 * 1024

  /** The three guards of `handleImageChange`, in their order.  A file is read
      exactly when one is chosen, its type starts with "image/" and it is at
      most 5 MiB; a missing file is reported first and a wrong type before a
      wrong size. */
  function CheckFile(file: Option<ChosenFile>): (r: Option<FileError>)
    ensures r.None? <==>
              file.Some? && StartsWith(file.value.mimeType, "image/") && file.value.size <= MaxImageBytes
    ensures file.None? ==> r == Some(NoFile)
    ensures file.Some? && !StartsWith(file.value.mimeType, "image/") ==> r == Some(NotAnImage)
    ensures file.Some? && StartsWith(file.value.mimeType, "image/") && file.value.size > MaxImageBytes ==>
              r == Some(TooLarge)
  {
    match file
    case None => Some(NoFile)
    case Some(f) =>
      if !StartsWith(f.mimeType, "image/") then Some(NotAnImage)
      else if f.size > MaxImageBytes then Some(TooLarge)
      else None
  }

  /** The size limit is inclusive: an image of exactly 5 MiB is accepted and one
      byte more is refused, although the message says "less than 5MB". */
  lemma SizeLimitBoundary(mimeType: string)
    requires StartsWith(mimeType, "image/")
    ensures CheckFile(Some(ChosenFile(mimeType, 5242880))).None?
    ensures CheckFile(Some(ChosenFile(mimeType, 5242881))) == Some(TooLarge)
  {
  }

  /** A PNG of any size up to the limit is read; a PDF is refused as not an
      image whatever its size. */
  lemma MimeExamples(n: int)
    ensures 0 <= n <= MaxImageBytes ==> CheckFile(Some(ChosenFile("image/png", n))) == None
    ensures CheckFile(Some(ChosenFile("application/pdf", n))) == Some(NotAnImage)
  {
    assert "image/png"[..6] == "image/";
    assert "application/pdf"[0] != "image/"[0];
  }

  // ---------------------------------------------------------------------------
  // The form

  /** The check at the top of `handleSubmit`: name, description and price not
      blank after trimming, and an image read. */
  predicate FormReady(name: string, description: string, price: string, imageBase64: string) {
    Trim(name) != "" && Trim(description) != "" && Trim(price) != "" && imageBase64 != ""
  }

  /** Stated without `trim`: every text field has a non-whitespace character. */
  lemma FormReadyIff(name: string, description: string, price: string, imageBase64: string)
    ensures FormReady(name, description, price, imageBase64) <==>
              !IsBlank(name) && !IsBlank(description) && !IsBlank(price) && imageBase64 != ""
  {
    TrimEmptyIffBlank(name);
    TrimEmptyIffBlank(description);
    TrimEmptyIffBlank(price);
  }

  /** `newMango`: the fields as typed, untrimmed; the price stays the text of
      the number input. */
  datatype MangoRequest = MangoRequest(name: string, description: string, image: string, price: string)

  datatype Submission = Incomplete | Posted(request: MangoRequest)

  const FormIncomplete: string := "Please fill all fields and upload an image"
  const MangoAdded: string := "Mango added successfully! \U{1F96D}"
  const AddFailed: string := "Failed to add mango"

  /** The toast for the reply to the POST: success only for a reply that says
      so; otherwise the server's message when it has one, else the fallback. */
  function ReplyToast(reply: Reply): (t: Toast)
    ensures t.Success? <==> Succeeded(reply)
    ensures Succeeded(reply) ==> t.text == MangoAdded
    ensures reply.Answered? && !reply.success ==> t.text == MessageOr(reply.message, AddFailed)
    ensures reply.Threw? ==> t.text == MessageOr(reply.responseMessage, AddFailed)
  {
    match reply
    case Answered(success, message) =>
      if success then Success(MangoAdded) else Error(MessageOr(message, AddFailed))
    case Threw(responseMessage) => Error(MessageOr(responseMessage, AddFailed))
  }

  datatype TextField = Name | Description | Price

  class AddMangoPage {
    var name: string
    var description: string
    var price: string
    /** The data URL of the last image read, "" when there is none. */
    var imageBase64: string
    var loading: bool

    constructor ()
      ensures name == "" && description == "" && price == "" && imageBase64 == "" && !loading
    {
      name, description, price, imageBase64 := "", "", "", "";
      loading := false;
    }

    /** The `onChange` of one text input. */
    method Edit(field: TextField, value: string)
      modifies this
      ensures name == (if field == Name then value else old(name))
      ensures description == (if field == Description then value else old(description))
      ensures price == (if field == Price then value else old(price))
      ensures imageBase64 == old(imageBase64) && loading == old(loading)
    {
      match field
      case Name => name := value;
      case Description => description := value;
      case Price => price := value;
    }

    /** `handleImageChange`: a refused file leaves the stored image as it was
        and reports why; an accepted one is read and its data URL `dataUrl`
        replaces the stored image. */
    method HandleImageChange(file: Option<ChosenFile>, dataUrl: string) returns (t: Toast)
      modifies this
      ensures name == old(name) && description == old(description) && price == old(price)
      ensures loading == old(loading)
      ensures CheckFile(file).Some? ==>
                imageBase64 == old(imageBase64) && t == Error(CheckFile(file).value.Message())
      ensures CheckFile(file).None? ==>
                imageBase64 == dataUrl && t == Success("Image uploaded successfully! \U{1F4F8}")
    {
      var v := CheckFile(file);
      if v.Some? {
        return Error(v.value.Message());
      }
      imageBase64 := dataUrl;
      t := Success("Image uploaded successfully! \U{1F4F8}");
    }

    /** `handleSubmit`.  An incomplete form posts nothing and changes nothing.
        Otherwise the fields are posted as typed; a success clears all four, a
        refusal or a thrown error keeps them, and `loading` ends false. */
    method Submit(reply: Reply) returns (r: Submission, t: Toast)
      modifies this
      ensures !FormReady(old(name), old(description), old(price), old(imageBase64)) ==>
                r == Incomplete && t == Error(FormIncomplete)
                && name == old(name) && description == old(description) && price == old(price)
                && imageBase64 == old(imageBase64) && loading == old(loading)
      ensures FormReady(old(name), old(description), old(price), old(imageBase64)) ==>
                r == Posted(MangoRequest(old(name), old(description), old(imageBase64), old(price)))
                && t == ReplyToast(reply) && !loading
      ensures r.Posted? && Succeeded(reply) ==>
                name == "" && description == "" && price == "" && imageBase64 == ""
      ensures r.Posted? && !Succeeded(reply) ==>
                name == old(name) && description == old(description) && price == old(price)
                && imageBase64 == old(imageBase64)
    {
      var ready := FormReady(name, description, price, imageBase64);
      if !ready {
        r, t := Incomplete, Error(FormIncomplete);
        return;
      }
      loading := true;
      r := Posted(MangoRequest(name, description, imageBase64, price));
      if Succeeded(reply) {
        name, description, price, imageBase64 := "", "", "", "";
      }
      t := ReplyToast(reply);
      loading := false;
    }
  }
}
