/** The host-a-listing page (src/sections/Host/index.tsx): the image check run before an
    upload, the image upload state, the form-to-mutation-input transform of a submission, and
    the render gate. */
module Host {
  import opened Wrappers
  import Js
  import App

  /** The part of a browser `File` the image check reads. */
  datatype ImageFile = ImageFile(mimeType: string, size: nat)

  const JpegType: string := "image/jpeg"
  const PngType: string := "image/png"

  /** One mebibyte: images must be strictly smaller. */
  const MaxImageBytes: nat := 1048576

  const InvalidTypeMessage: string := "You're only able to upload valid JPG or PNG files!"
  const InvalidSizeMessage: string := "You're only able to upload valid image files of under 1MB in size!"

  /** The outcome of `beforeImageUpload`: whether the upload goes ahead, and the error message
      it displays, if any. */
  datatype UploadCheck = UploadCheck(accepted: bool, message: Option<string>)

  /** `beforeImageUpload`. The size test divides by 1024 twice, as the component does; the
      divisors are powers of two, so floating point computes these quotients exactly. */
  function BeforeImageUpload(file: ImageFile): (r: UploadCheck)
    ensures r.accepted <==> (file.mimeType == JpegType || file.mimeType == PngType) && file.size < MaxImageBytes
    ensures r.accepted <==> r.message.None?
    ensures !(file.mimeType == JpegType || file.mimeType == PngType) ==> r.message == Some(InvalidTypeMessage)
    ensures r.message == Some(InvalidSizeMessage) <==>
              (file.mimeType == JpegType || file.mimeType == PngType) && file.size >= MaxImageBytes
  {
    var fileIsValidImage := file.mimeType == JpegType || file.mimeType == PngType;
    var fileIsValidSize := file.size as real / 1024.0 / 1024.0 < 1.0;
    if !fileIsValidImage then UploadCheck(false, Some(InvalidTypeMessage))
    else if !fileIsValidSize then UploadCheck(false, Some(InvalidSizeMessage))
    else UploadCheck(fileIsValidSize && fileIsValidImage, None)
  }

  /** The upload widget's file statuses. */
  datatype UploadStatus = Uploading | Done | Success | Error | Removed

  /** The image area of the form: the uploaded image, or the upload button with a spinner
      while an upload runs. */
  datatype ImagePreview = UploadedImage(src: string) | UploadButton(spinner: bool)

  function Preview(imageLoading: bool, imageBase64Value: Option<string>): (p: ImagePreview)
    ensures Js.TruthyString(imageBase64Value) ==> p == UploadedImage(imageBase64Value.value)
    ensures !Js.TruthyString(imageBase64Value) ==> p == UploadButton(imageLoading)
  {
    if imageBase64Value.Some? && imageBase64Value.value != "" then UploadedImage(imageBase64Value.value)
    else UploadButton(imageLoading)
  }

  datatype ListingType = Apartment | House

  /** The GraphQL enum name of a listing type. */
  function ListingTypeName(t: ListingType): string {
    match t
    case Apartment => "APARTMENT"
    case House => "HOUSE"
  }

  /** A field value of the JavaScript objects the form produces. */
  datatype JsValue = Str(s: string) | Num(n: int) | Undefined

  /** The values `validateFields` resolves with, one per form item; `image` is whatever the
      upload item holds. Prices are whole dollars here. */
  datatype HostFormValues = HostFormValues(
    listingType: ListingType,
    numOfGuests: int,
    title: string,
    description: string,
    address: string,
    city: string,
    state: string,
    postalCode: string,
    image: JsValue,
    price: int)

  /** The form values as the object the handler spreads, keyed by form item name. */
  function FormObject(values: HostFormValues): (o: map<string, JsValue>)
    ensures o.Keys == {"type", "numOfGuests", "title", "description", "address",
                       "city", "state", "postalCode", "image", "price"}
  {
    map[
      "type" := Str(ListingTypeName(values.listingType)),
      "numOfGuests" := Num(values.numOfGuests),
      "title" := Str(values.title),
      "description" := Str(values.description),
      "address" := Str(values.address),
      "city" := Str(values.city),
      "state" := Str(values.state),
      "postalCode" := Str(values.postalCode),
      "image" := values.image,
      "price" := Num(values.price)]
  }

  const AddressSeparator: string := ", "

  /** The keys of the submitted input. */
  const InputKeys: set<string> := {"type", "numOfGuests", "title", "description", "address", "image", "price"}

  /** The submitted input of a submission of `values`: no city, state or postal-code keys, the
      joined address, the price in cents, the encoded image in place of the form's own image
      value, and type, guests, title and description as the form had them. */
  predicate IsHostListingInput(input: map<string, JsValue>, values: HostFormValues, imageBase64Value: Option<string>) {
    && input.Keys == InputKeys
    && input["address"] == Str(values.address + AddressSeparator + values.city + AddressSeparator
                               + values.state + AddressSeparator + values.postalCode)
    && input["price"] == Num(values.price * 100)
    && input["image"] == (if imageBase64Value.Some? then Str(imageBase64Value.value) else Undefined)
    && input["type"] == Str(ListingTypeName(values.listingType))
    && input["numOfGuests"] == Num(values.numOfGuests)
    && input["title"] == Str(values.title)
    && input["description"] == Str(values.description)
  }

  /** The input built in `handleHostListing`: spread the form values, override address, image
      and price, then delete city, state and postal code. */
  method BuildHostListingInput(values: HostFormValues, imageBase64Value: Option<string>)
    returns (input: map<string, JsValue>)
    ensures IsHostListingInput(input, values, imageBase64Value)
    ensures "city" !in input && "state" !in input && "postalCode" !in input
    ensures forall k | k in {"type", "numOfGuests", "title", "description"} :: input[k] == FormObject(values)[k]
  {
    var fullAddress := values.address + ", " + values.city + ", " + values.state + ", " + values.postalCode;
    input := FormObject(values);
    input := input["address" := Str(fullAddress)];
    input := input["image" := if imageBase64Value.Some? then Str(imageBase64Value.value) else Undefined];
    input := input["price" := Num(values.price * 100)];
    input := input - {"city"};
    input := input - {"state"};
    input := input - {"postalCode"};
  }

  const IncompleteFormMessage: string := "Please complete all required form fields!"

  /** How a submission ends: a validation error, or a HOST_LISTING call with its input. */
  datatype HostSubmission = ValidationFailed(message: string) | HostListingRequested(input: map<string, JsValue>)

  /** `handleHostListing`: `validated` is what form validation yields, None when it rejects. */
  method HandleHostListing(validated: Option<HostFormValues>, imageBase64Value: Option<string>)
    returns (outcome: HostSubmission)
    ensures outcome.ValidationFailed? <==> validated.None?
    ensures outcome.ValidationFailed? ==> outcome.message == IncompleteFormMessage
    ensures outcome.HostListingRequested? ==> IsHostListingInput(outcome.input, validated.value, imageBase64Value)
  {
    if validated.None? {
      outcome := ValidationFailed(IncompleteFormMessage);
    } else {
      var input := BuildHostListingInput(validated.value, imageBase64Value);
      outcome := HostListingRequested(input);
    }
  }

  /** What HOST_LISTING returns. */
  datatype HostListingData = HostListingData(hostListing: Option<string>)

  /** What the page renders. */
  datatype HostView =
    | CreatingSpinner
    | RedirectTo(path: string)
    | SignInNotice
    | HostForm

  /** The render gate: the mutation in flight, then a created listing, then a viewer who is
      not signed in or has no wallet, then the form. */
  function View(loading: bool, data: Option<HostListingData>, viewer: App.Viewer): (v: HostView)
    ensures v.CreatingSpinner? <==> loading
    ensures v.RedirectTo? <==> !loading && data.Some? && data.value.hostListing.Some?
    ensures v.RedirectTo? ==> v.path == "/listing/" + data.value.hostListing.value
    ensures v.SignInNotice? <==>
              !loading && !(data.Some? && data.value.hostListing.Some?)
              && !(Js.TruthyString(viewer.id) && Js.TruthyBool(viewer.hasWallet))
    ensures v.HostForm? ==> Js.TruthyString(viewer.id) && Js.TruthyBool(viewer.hasWallet)
  {
    if loading then CreatingSpinner
    else if data.Some? && data.value.hostListing.Some? then RedirectTo("/listing/" + data.value.hostListing.value)
    else if viewer.id.None? || viewer.id.value == "" || viewer.hasWallet != Some(true) then SignInNotice
    else HostForm
  }

  /** The page's two image state cells. */
  class HostPage {
    var imageLoading: bool
    var imageBase64Value: Option<string>

    constructor ()
      ensures !imageLoading && imageBase64Value.None?
    {
      imageLoading := false;
      imageBase64Value := None;
    }

    /** `handleImageUpload`. `encoded` is the data URL of the selected file when the widget
        hands one over (`originFileObj`), as the file reader produces it. */
    method HandleImageUpload(status: UploadStatus, encoded: Option<string>)
      modifies this
      ensures status == Uploading ==> imageLoading && imageBase64Value == old(imageBase64Value)
      ensures status == Done && encoded.Some? ==> !imageLoading && imageBase64Value == encoded
      ensures status != Uploading && !(status == Done && encoded.Some?) ==>
                imageLoading == old(imageLoading) && imageBase64Value == old(imageBase64Value)
    {
      if status == Uploading {
        imageLoading := true;
        return;
      }
      if status == Done && encoded.Some? {
        imageBase64Value := encoded;
        imageLoading := false;
      }
    }
  }
}
