/**
 * The message composer: a text field, one picked image with its preview,
 * an uploading flag and an error line. Sending hands a call to the chat
 * page's send handler back to the caller.
 */
module MessageInput {
  import opened Common
  import opened Strings
  import opened Domain
  import Constants

  const NotAnImageText: string := "Please select an image file (png, jpg, gif)."
  const TooLargeText: string := "File is too large. Max 10MB allowed."
  const NoImageText: string := "Please select an image file first."
  const MissingUrlText: string := "Image URL was not returned from the server after upload."
  const ProcessFailedText: string := "Failed to process image. Please try again."

  /** The largest image the composer accepts, in bytes. */
  const MaxChatImageBytes: int := 10 * 1024 * 1024

  /** The composer's size limit is the shared upload limit in megabytes. */
  lemma ChatImageLimitMatchesConstant()
    ensures MaxChatImageBytes == Constants.MaxImageUploadSizeMb * 1024 * 1024
  {
  }

  /** The check of a picked file: None when it is accepted, otherwise the error shown. */
  function ValidateChatImage(f: File): (r: Option<string>)
    ensures r.None? <==> IsImageType(f) && f.size <= MaxChatImageBytes
    ensures !IsImageType(f) ==> r == Some(NotAnImageText)
    ensures IsImageType(f) && f.size > MaxChatImageBytes ==> r == Some(TooLargeText)
  {
    if !IsImageType(f) then Some(NotAnImageText)
    else if f.size > 10 * 1024 * 1024 then Some(TooLargeText)
    else None
  }

  /** The size limit is inclusive: exactly 10 MiB passes, one byte more does not. */
  lemma ChatImageSizeBoundary(mimeType: string)
    requires StartsWith(mimeType, "image/")
    ensures ValidateChatImage(File(mimeType, 10485760)).None?
    ensures ValidateChatImage(File(mimeType, 10485761)) == Some(TooLargeText)
  {
  }

  /** A call of `onSendMessage(text, type, imageUrl)`. */
  datatype SendCall = SendCall(text: Option<string>, messageType: string, imageUrl: Option<string>)

  /** What `uploadChatImage` returns: the saved message (or nothing), or a rejection. */
  datatype UploadedImage = UploadedImage(contentText: Option<string>, contentImageUrl: Option<string>)
  datatype UploadOutcome = Uploaded(dto: Option<UploadedImage>) | UploadFailed(error: HttpError)

  class Composer {
    var messageText: string
    var imageFile: Option<File>
    var imagePreview: Option<string>
    var isUploading: bool
    var error: string

    /** A stored file has passed the checks and has a preview. */
    ghost predicate Valid()
      reads this
    {
      && (imageFile.Some? ==> ValidateChatImage(imageFile.value).None?)
      && (imageFile.Some? <==> imagePreview.Some?)
    }

    constructor()
      ensures messageText == "" && imageFile.None? && imagePreview.None? && !isUploading && error == ""
      ensures Valid()
    {
      messageText := "";
      imageFile := None;
      imagePreview := None;
      isUploading := false;
      error := "";
    }

    /** Typing in the text field. */
    method SetMessageText(text: string)
      requires Valid()
      modifies this
      ensures messageText == text
      ensures imageFile == old(imageFile) && imagePreview == old(imagePreview)
      ensures isUploading == old(isUploading) && error == old(error)
      ensures Valid()
    {
      messageText := text;
    }

    /**
     * `handleTextSubmit`: blank text is not sent and nothing changes;
     * otherwise the trimmed text is sent as TEXT without an image, and the
     * field and the error are cleared.
     */
    method HandleTextSubmit() returns (sent: Option<SendCall>)
      requires Valid()
      modifies this
      ensures AllWhitespace(old(messageText)) ==>
        sent.None? && messageText == old(messageText) && error == old(error)
      ensures !AllWhitespace(old(messageText)) ==>
        sent == Some(SendCall(Some(Trim(old(messageText))), Constants.TextType, None))
        && messageText == "" && error == ""
      ensures imageFile == old(imageFile) && imagePreview == old(imagePreview) && isUploading == old(isUploading)
      ensures Valid()
    {
      if Trim(messageText) == "" {
        return None;
      }
      sent := Some(SendCall(Some(Trim(messageText)), "TEXT", None));
      messageText := "";
      error := "";
    }

    /**
     * `handleImageFileChange`: with no file picked nothing changes; a
     * rejected file clears the stored file and preview and sets the error;
     * an accepted one is stored with `objectUrl` as its preview.
     */
    method HandleImageFileChange(files: seq<File>, objectUrl: string)
      requires Valid()
      modifies this
      ensures files == [] ==>
        imageFile == old(imageFile) && imagePreview == old(imagePreview) && error == old(error)
      ensures files != [] && ValidateChatImage(files[0]).Some? ==>
        imageFile.None? && imagePreview.None? && error == ValidateChatImage(files[0]).value
      ensures files != [] && ValidateChatImage(files[0]).None? ==>
        imageFile == Some(files[0]) && imagePreview == Some(objectUrl) && error == ""
      ensures messageText == old(messageText) && isUploading == old(isUploading)
      ensures Valid()
    {
      if files != [] {
        var file := files[0];
        if !StartsWith(file.mimeType, "image/") {
          error := NotAnImageText;
          imageFile := None;
          imagePreview := None;
          return;
        }
        if file.size > 10 * 1024 * 1024 {
          error := TooLargeText;
          imageFile := None;
          imagePreview := None;
          return;
        }
        imageFile := Some(file);
        imagePreview := Some(objectUrl);
        error := "";
      }
    }

    /**
     * `handleImageUploadAndSend(chatId)`: without a file or a chat nothing is
     * uploaded and an error is set. Otherwise the upload's result decides:
     * with an image URL the image is sent, carrying the server's text as its
     * caption, and the file and preview are cleared; without one, or on a
     * rejection, nothing is sent, the file is kept and the error is the
     * server's message or the generic text.
     */
    method HandleImageUploadAndSend(chatId: Option<Id>, upload: UploadOutcome) returns (sent: Option<SendCall>)
      requires Valid()
      modifies this
      ensures messageText == old(messageText)
      ensures old(imageFile).None? || !IdTruthy(chatId) ==>
        sent.None? && error == NoImageText && imageFile == old(imageFile) && imagePreview == old(imagePreview)
        && isUploading == old(isUploading)
      ensures old(imageFile).Some? && IdTruthy(chatId) ==> !isUploading
      ensures old(imageFile).Some? && IdTruthy(chatId) && upload.Uploaded? && upload.dto.Some?
              && Truthy(upload.dto.value.contentImageUrl) ==>
        sent == Some(SendCall(upload.dto.value.contentText, Constants.ImageType, upload.dto.value.contentImageUrl))
        && imageFile.None? && imagePreview.None? && error == ""
      ensures old(imageFile).Some? && IdTruthy(chatId) && upload.Uploaded?
              && !(upload.dto.Some? && Truthy(upload.dto.value.contentImageUrl)) ==>
        sent.None? && imageFile == old(imageFile) && imagePreview == old(imagePreview) && error == ProcessFailedText
      ensures old(imageFile).Some? && IdTruthy(chatId) && upload.UploadFailed? ==>
        sent.None? && imageFile == old(imageFile) && imagePreview == old(imagePreview)
        && error == ServerMessageOr(upload.error, ProcessFailedText)
      ensures Valid()
    {
      sent := None;
      if imageFile.None? || !IdTruthy(chatId) {
        error := NoImageText;
        return;
      }
      isUploading := true;
      error := "";
      match upload {
        case Uploaded(dto) =>
          if dto.Some? && Truthy(dto.value.contentImageUrl) {
            sent := Some(SendCall(dto.value.contentText, "IMAGE", dto.value.contentImageUrl));
            imageFile := None;
            imagePreview := None;
          } else {
            // The thrown Error has no response, so the fallback text is shown.
            var thrown := HttpError(None, None, Some(MissingUrlText));
            error := ServerMessageOr(thrown, ProcessFailedText);
          }
        case UploadFailed(e) =>
          error := ServerMessageOr(e, ProcessFailedText);
      }
      isUploading := false;
    }

    /** `removeImagePreview`: the file, its preview and the error are cleared. */
    method RemoveImagePreview()
      requires Valid()
      modifies this
      ensures imageFile.None? && imagePreview.None? && error == ""
      ensures messageText == old(messageText) && isUploading == old(isUploading)
      ensures Valid()
    {
      imageFile := None;
      imagePreview := None;
      error := "";
    }
  }
}
