/**
 * The admin form that creates or edits a tool: the field rules of its
 * validation schema, the guards on the chosen image, the image upload that
 * is skipped when nothing new was chosen, and what is submitted and reset.
 */
module ToolForm {
  import opened Optional
  import opened Api

  /** The form's values. */
  datatype ToolFormValues = ToolFormValues(
    name: string, description: string, pricePerDay: int, category: string, available: bool)

  const NameMessage := "Название должно содержать не менее 3 символов"
  const DescriptionMessage := "Описание должно содержать не менее 10 символов"
  const PriceMessage := "Цена должна быть положительным числом"
  const CategoryMessage := "Выберите категорию"

  predicate NameValid(name: string) { |name| >= 3 }
  predicate DescriptionValid(description: string) { |description| >= 10 }
  predicate PriceValid(price: int) { price > 0 }
  predicate CategoryValid(category: string) { |category| >= 1 }

  /** The schema accepts the values. */
  predicate IsValid(v: ToolFormValues) {
    NameValid(v.name) && DescriptionValid(v.description) && PriceValid(v.pricePerDay)
    && CategoryValid(v.category)
  }

  /** The messages the schema reports, one per failing field, in field order. */
  function FieldErrors(v: ToolFormValues): (errors: seq<string>)
    ensures errors == [] <==> IsValid(v)
    ensures NameMessage in errors <==> !NameValid(v.name)
    ensures DescriptionMessage in errors <==> !DescriptionValid(v.description)
    ensures PriceMessage in errors <==> !PriceValid(v.pricePerDay)
    ensures CategoryMessage in errors <==> !CategoryValid(v.category)
    ensures |errors| <= 4
  {
    (if NameValid(v.name) then [] else [NameMessage])
    + (if DescriptionValid(v.description) then [] else [DescriptionMessage])
    + (if PriceValid(v.pricePerDay) then [] else [PriceMessage])
    + (if CategoryValid(v.category) then [] else [CategoryMessage])
  }

  /** The form's `defaultValues`. */
  const DefaultValues := ToolFormValues("", "", 0, "", true)

  /** An untouched form is invalid in all four checked fields, and the tool is available. */
  lemma DefaultsFailEveryRule()
    ensures FieldErrors(DefaultValues) == [NameMessage, DescriptionMessage, PriceMessage, CategoryMessage]
    ensures DefaultValues.available
  {
  }

  /** A chosen file: its size in bytes and its MIME type. */
  datatype ImageFile = ImageFile(size: int, mimeType: string)

  const MaxImageSize := 5 * 1024 * 1024
  const AllowedTypes := ["image/jpeg", "image/png", "image/webp"]

  datatype ImageVerdict = NoFile | TooLarge | BadType | Accepted

  /** `handleImageChange`'s guards, in their order: a file, then its size, then its type. */
  function CheckImage(file: Option<ImageFile>): (v: ImageVerdict)
    ensures v == NoFile <==> file.None?
    ensures v == TooLarge <==> file.Some? && file.value.size > MaxImageSize
    ensures v == BadType <==> file.Some? && file.value.size <= MaxImageSize && file.value.mimeType !in AllowedTypes
    ensures v == Accepted <==> file.Some? && file.value.size <= MaxImageSize && file.value.mimeType in AllowedTypes
  {
    if file.None? then NoFile
    else if file.value.size > 5 * 1024 * 1024 then TooLarge
    else if file.value.mimeType !in ["image/jpeg", "image/png", "image/webp"] then BadType
    else Accepted
  }

  /** Exactly the three image types are accepted, at any size up to 5 MB. */
  lemma AcceptedTypes(size: int, mimeType: string)
    requires 0 <= size <= 5242880
    ensures CheckImage(Some(ImageFile(size, mimeType))) == Accepted <==>
      mimeType == "image/jpeg" || mimeType == "image/png" || mimeType == "image/webp"
  {
  }

  /**
   * What `uploadImage` resolves to: the current preview when no new image is
   * selected or it was already uploaded, otherwise the uploaded URL, None
   * when the upload failed.
   */
  function UploadResult(selected: Option<ImageFile>, uploadSuccess: bool, preview: Option<string>,
                        uploaded: Option<string>): Option<string> {
    if selected.None? || uploadSuccess then preview else uploaded
  }

  /** Edit mode: `toolId` is given and truthy, so 0 counts as create mode. */
  predicate IsEditMode(toolId: Option<int>) {
    toolId.Some? && toolId.value != 0
  }

  /** `imageUrl || ""`: a missing URL is sent as the empty string. */
  function SubmittedImage(url: Option<string>): string {
    url.GetOr("")
  }

  /** The tool data sent to the server: the form values and the image URL. */
  datatype ToolPayload = ToolPayload(values: ToolFormValues, image: string)

  /** How `onSubmit` saved the tool. */
  datatype SaveCall = Update(id: int, payload: ToolPayload) | Create(payload: ToolPayload)

  /** The save `onSubmit` issues, given the URL `uploadImage` resolved to. */
  function SubmitCall(toolId: Option<int>, values: ToolFormValues, url: Option<string>): SaveCall {
    if IsEditMode(toolId) then Update(toolId.value, ToolPayload(values, SubmittedImage(url)))
    else Create(ToolPayload(values, SubmittedImage(url)))
  }

  /** The upload flag `uploadImage` leaves: set by a real upload that succeeded, otherwise unchanged. */
  function UploadFlag(selected: Option<ImageFile>, uploadSuccess: bool, uploaded: Option<string>): bool {
    if selected.None? || uploadSuccess then uploadSuccess else uploaded.Some?
  }

  /**
   * An image is uploaded at most once: the first upload of a selected file
   * that succeeds returns its URL and sets the flag; every later upload of
   * the same selection keeps the flag and returns the preview, whatever the
   * server would have answered.
   */
  lemma UploadHappensOnce(file: ImageFile, preview: Option<string>, first: Option<string>, later: Option<string>)
    requires first.Some?
    ensures UploadFlag(Some(file), false, first)
    ensures UploadResult(Some(file), false, preview, first) == first
    ensures UploadFlag(Some(file), UploadFlag(Some(file), false, first), later)
    ensures UploadResult(Some(file), UploadFlag(Some(file), false, first), preview, later) == preview
  {
  }

  /** Without a selected file nothing is uploaded, and the preview, or "", is what gets saved. */
  lemma NoFileSavesPreview(toolId: Option<int>, values: ToolFormValues, uploadSuccess: bool,
                           preview: Option<string>, uploaded: Option<string>)
    ensures UploadFlag(None, uploadSuccess, uploaded) == uploadSuccess
    ensures SubmitCall(toolId, values, UploadResult(None, uploadSuccess, preview, uploaded)).payload
            == ToolPayload(values, preview.GetOr(""))
  {
  }

  /**
   * A save retried after the upload went through but the save failed sends
   * the preview, which for a freshly chosen file is its data URL, and not the
   * URL the first upload produced: that URL is never stored.
   */
  lemma RetriedSaveSendsPreview(toolId: Option<int>, values: ToolFormValues, file: ImageFile,
                                dataUrl: string, uploadedUrl: string, again: Option<string>)
    ensures SubmitCall(toolId, values, UploadResult(Some(file), false, Some(dataUrl), Some(uploadedUrl))).payload.image
            == uploadedUrl
    ensures SubmitCall(toolId, values,
                       UploadResult(Some(file), UploadFlag(Some(file), false, Some(uploadedUrl)), Some(dataUrl), again))
              .payload.image == dataUrl
  {
  }

  /** Edit mode decides between update and create; a tool id of 0 is falsy and creates. */
  lemma SaveKind(values: ToolFormValues, url: Option<string>, id: int)
    ensures SubmitCall(Some(id), values, url).Update? <==> id != 0
    ensures id != 0 ==> SubmitCall(Some(id), values, url).id == id
    ensures SubmitCall(None, values, url).Create?
    ensures SubmitCall(Some(id), values, url).payload == SubmitCall(None, values, url).payload
  {
  }

  /** The component's state. */
  class ToolFormState {
    const toolId: Option<int>
    var values: ToolFormValues
    var selectedImage: Option<ImageFile>
    var imagePreview: Option<string>
    var isUploading: bool
    var uploadSuccess: bool

    constructor (toolId: Option<int>)
      ensures this.toolId == toolId && values == DefaultValues
      ensures selectedImage == None && imagePreview == None && !isUploading && !uploadSuccess
    {
      this.toolId := toolId;
      values := ToolFormValues("", "", 0, "", true);
      selectedImage, imagePreview := None, None;
      isUploading, uploadSuccess := false, false;
    }

    /**
     * The loading effect: in edit mode the fetched tool fills the form, and
     * its image, when non-empty, becomes the preview. `response` is None when
     * the fetch failed or was not made.
     */
    method LoadTool(response: Option<Tool>)
      modifies this`values, this`imagePreview
      ensures IsEditMode(toolId) && response.Some? ==>
        var t := response.value;
        values == ToolFormValues(t.name, t.description, t.pricePerDay, t.category, t.available)
        && imagePreview == (if t.image != "" then Some(t.image) else old(imagePreview))
      ensures !IsEditMode(toolId) || response.None? ==> values == old(values) && imagePreview == old(imagePreview)
    {
      if !(toolId.Some? && toolId.value != 0) || response.None? {
        return;
      }
      var t := response.value;
      values := ToolFormValues(t.name, t.description, t.pricePerDay, t.category, t.available);
      if t.image != "" {
        imagePreview := Some(t.image);
      }
    }

    /**
     * `handleImageChange`: a refused file changes nothing; an accepted one
     * becomes the selected image, its data URL the preview, and it is marked
     * as not uploaded.
     */
    method HandleImageChange(file: Option<ImageFile>, dataUrl: string) returns (verdict: ImageVerdict)
      modifies this`selectedImage, this`imagePreview, this`uploadSuccess
      ensures verdict == CheckImage(file)
      ensures verdict == Accepted ==> selectedImage == file && imagePreview == Some(dataUrl) && !uploadSuccess
      ensures verdict != Accepted ==> selectedImage == old(selectedImage) && imagePreview == old(imagePreview)
      ensures verdict != Accepted ==> uploadSuccess == old(uploadSuccess)
    {
      verdict := CheckImage(file);
      if verdict != Accepted {
        return;
      }
      selectedImage := file;
      imagePreview := Some(dataUrl);
      uploadSuccess := false;
    }

    /** `handleImageRemove`. */
    method HandleImageRemove()
      modifies this`selectedImage, this`imagePreview, this`uploadSuccess
      ensures selectedImage == None && imagePreview == None && !uploadSuccess
    {
      selectedImage, imagePreview, uploadSuccess := None, None, false;
    }

    /**
     * `uploadImage`; `uploaded` is the URL the upload produced, None when it
     * failed. Without a new image, or with one already uploaded, nothing
     * changes.
     */
    method UploadImage(uploaded: Option<string>) returns (url: Option<string>)
      modifies this`isUploading, this`uploadSuccess
      ensures url == UploadResult(selectedImage, old(uploadSuccess), imagePreview, uploaded)
      ensures uploadSuccess == UploadFlag(selectedImage, old(uploadSuccess), uploaded)
      ensures selectedImage.None? || old(uploadSuccess) ==>
                isUploading == old(isUploading) && uploadSuccess == old(uploadSuccess)
      ensures selectedImage.Some? && !old(uploadSuccess) ==> !isUploading && uploadSuccess == uploaded.Some?
    {
      if selectedImage.None? || uploadSuccess {
        return imagePreview;
      }
      isUploading := true;
      if uploaded.Some? {
        uploadSuccess := true;
        url := uploaded;
      } else {
        url := None;
      }
      isUploading := false;
    }

    /**
     * `onSubmit`, for values the schema accepted: upload the image if needed,
     * then update (edit mode) or create the tool. `saved` says whether the
     * server accepted it; only a successful create resets the form.
     */
    method OnSubmit(uploaded: Option<string>, saved: bool) returns (call: SaveCall)
      requires IsValid(values)
      modifies this`values, this`selectedImage, this`imagePreview, this`isUploading, this`uploadSuccess
      ensures call == SubmitCall(toolId, old(values),
                                 UploadResult(old(selectedImage), old(uploadSuccess), old(imagePreview), uploaded))
      ensures saved && !IsEditMode(toolId) ==>
                values == DefaultValues && selectedImage == None && imagePreview == None && !uploadSuccess
      ensures !saved || IsEditMode(toolId) ==>
                values == old(values) && selectedImage == old(selectedImage) && imagePreview == old(imagePreview)
      ensures !saved || IsEditMode(toolId) ==>
                uploadSuccess == (old(uploadSuccess) || (old(selectedImage).Some? && uploaded.Some?))
      ensures isUploading == (old(isUploading) && (old(selectedImage).None? || old(uploadSuccess)))
    {
      var url := UploadImage(uploaded);
      call := SubmitCall(toolId, values, url);
      if saved && !(toolId.Some? && toolId.value != 0) {
        values := ToolFormValues("", "", 0, "", true);
        selectedImage, imagePreview, uploadSuccess := None, None, false;
      }
    }
  }
}
