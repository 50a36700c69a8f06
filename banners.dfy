/**
 * The Banners editor: a cached banner list, a form of four fields, and a
 * separate image slot (`imgUrl`) that must be filled before a save.
 */
module Banners {
  import opened Api

  /** A form value: the text of an input, or the state of a checkbox. */
  datatype FieldValue = Text(s: string) | Flag(b: bool)

  datatype BannerField = Name | Description | Position | IsActive

  datatype BannerForm = BannerForm(name: FieldValue, description: FieldValue, position: FieldValue, isActive: FieldValue)
  {
    function Get(field: BannerField): FieldValue {
      match field
      case Name => name
      case Description => description
      case Position => position
      case IsActive => isActive
    }
  }

  datatype BannerRecord = BannerRecord(
    id: string, name: string, description: string, position: string, isActive: bool, img: string)

  /** What is sent on save: the form plus `img`. */
  datatype BannerPayload = BannerPayload(form: BannerForm, img: string)

  /** The default buffer: empty texts, active. */
  const DefaultForm := BannerForm(Text(""), Text(""), Text(""), Flag(true))

  /** The kind of the input that fired the change event. */
  datatype InputKind = Checkbox | TextInput

  /** `handleChange`: a checkbox stores `checked`, any other input its `value`; only the named field changes. */
  function Changed(f: BannerForm, field: BannerField, kind: InputKind, value: string, checked: bool): (r: BannerForm)
    ensures r.Get(field) == if kind == Checkbox then Flag(checked) else Text(value)
    ensures forall other :: other != field ==> r.Get(other) == f.Get(other)
  {
    var v := if kind == Checkbox then Flag(checked) else Text(value);
    match field
    case Name => f.(name := v)
    case Description => f.(description := v)
    case Position => f.(position := v)
    case IsActive => f.(isActive := v)
  }

  /** The buffer `openModal(banner)` loads. */
  function FormOf(b: BannerRecord): (f: BannerForm)
    ensures f.Get(Name) == Text(b.name) && f.Get(Description) == Text(b.description)
    ensures f.Get(Position) == Text(b.position) && f.Get(IsActive) == Flag(b.isActive)
  {
    BannerForm(Text(b.name), Text(b.description), Text(b.position), Flag(b.isActive))
  }

  /**
   * The save request: an update of the selected banner only when the page is
   * in edit mode and a banner is selected, otherwise a create.
   */
  function SaveCall(editMode: bool, selected: Option<BannerRecord>, payload: BannerPayload): (r: Call<BannerPayload>)
    ensures r.Update? <==> editMode && selected.Some?
    ensures r.Update? ==> r == Update(selected.value.id, payload)
    ensures !r.Update? ==> r == Create(payload)
  {
    if editMode && selected.Some? then Update(selected.value.id, payload) else Create(payload)
  }

  /** The page state of the Banners editor. */
  class BannersPage {
    var banners: seq<BannerRecord>
    var loading: bool
    var modalOpen: bool
    var editMode: bool
    var selectedBanner: Option<BannerRecord>
    var imgUrl: string
    var form: BannerForm
    ghost var calls: seq<Call<BannerPayload>>
    ghost var notices: seq<Notice>

    constructor ()
      ensures banners == [] && !loading && !modalOpen && !editMode && selectedBanner == None
      ensures imgUrl == "" && form == DefaultForm
      ensures calls == [] && notices == []
    {
      banners, loading, modalOpen := [], false, false;
      editMode, selectedBanner := false, None;
      imgUrl, form := "", DefaultForm;
      calls, notices := [], [];
    }

    /** The upload control is rendered only while the slot is empty. */
    predicate UploadOffered()
      reads this
    {
      imgUrl == ""
    }

    /** `fetchBanners`: success replaces the list; `loading` ends false in every case. */
    method Fetch(reply: Reply<seq<BannerRecord>>)
      modifies this`banners, this`loading, this`calls, this`notices
      ensures calls == old(calls) + [FetchList]
      ensures banners == if reply.Success? then reply.data else old(banners)
      ensures notices == old(notices) + match reply
        case Success(_) => []
        case Failure(message) => [Failed(message)]
        case Thrown => [Failed("Failed to fetch banners")]
      ensures !loading
    {
      loading := true;
      calls := calls + [FetchList];
      match reply {
        case Success(list) =>
          banners := list;
        case Failure(message) =>
          notices := notices + [Failed(message)];
        case Thrown =>
          notices := notices + [Failed("Failed to fetch banners")];
      }
      loading := false;
    }

    method HandleChange(field: BannerField, kind: InputKind, value: string, checked: bool)
      modifies this`form
      ensures form == Changed(old(form), field, kind, value, checked)
    {
      form := Changed(form, field, kind, value, checked);
    }

    /**
     * `handleUpload`: with a file chosen, uploads it; success with a file fills
     * the slot. Only the upload control calls it, and that control exists only
     * while the slot is empty, so a stored URL never replaces another one.
     */
    method Upload(filePresent: bool, reply: Reply<seq<string>>)
      requires UploadOffered()
      modifies this`imgUrl, this`calls, this`notices
      ensures imgUrl != "" ==> filePresent && reply.Success? && |reply.data| > 0 && imgUrl == reply.data[0]
      ensures !filePresent ==> imgUrl == old(imgUrl) && calls == old(calls) && notices == old(notices)
      ensures filePresent ==>
        && calls == old(calls) + [UploadImage]
        && imgUrl == (if reply.Success? && |reply.data| > 0 then reply.data[0] else old(imgUrl))
        && notices == old(notices) + [
             if reply.Success? && |reply.data| > 0 then Succeeded("\U{2705} Image uploaded successfully!")
             else if reply.Thrown? then Failed("Image upload failed!")
             else Failed("Upload failed!")]
    {
      if !filePresent {
        return;
      }
      calls := calls + [UploadImage];
      if reply.Success? && |reply.data| > 0 {
        imgUrl := reply.data[0];
        notices := notices + [Succeeded("\U{2705} Image uploaded successfully!")];
      } else if reply.Thrown? {
        notices := notices + [Failed("Image upload failed!")];
      } else {
        notices := notices + [Failed("Upload failed!")];
      }
    }

    /** `handleImageDelete`: releases the image; the slot is cleared only on success. */
    method ImageDelete(reply: Reply<()>)
      modifies this`imgUrl, this`calls, this`notices
      ensures old(imgUrl) == "" ==> imgUrl == "" && calls == old(calls) && notices == old(notices)
      ensures old(imgUrl) != "" ==>
        && calls == old(calls) + [DeleteImages([old(imgUrl)])]
        && imgUrl == (if reply.Success? then "" else old(imgUrl))
        && notices == old(notices) + [
             if reply.Success? then Succeeded("\U{1F5D1}\U{FE0F} Image deleted successfully")
             else if reply.Thrown? then Failed("Delete failed")
             else Failed("Failed to delete image")]
    {
      if imgUrl == "" {
        return;
      }
      calls := calls + [DeleteImages([imgUrl])];
      if reply.Success? {
        notices := notices + [Succeeded("\U{1F5D1}\U{FE0F} Image deleted successfully")];
        imgUrl := "";
      } else if reply.Thrown? {
        notices := notices + [Failed("Delete failed")];
      } else {
        notices := notices + [Failed("Failed to delete image")];
      }
    }

    /**
     * `handleSubmit`: refused with no call while the slot is empty; otherwise
     * sends the form plus the image. Success (whose reply carries the
     * message to show) closes the modal, resets the form
     * and the slot and refetches; edit mode and the selection are kept.
     * Failure keeps everything.
     */
    method Submit(reply: Reply<string>, refetch: Reply<seq<BannerRecord>>)
      modifies this`banners, this`loading, this`modalOpen, this`form, this`imgUrl, this`calls, this`notices
      ensures old(imgUrl) == "" ==>
        && calls == old(calls) && notices == old(notices) + [Failed("Please upload an image first!")]
        && form == old(form) && imgUrl == old(imgUrl) && modalOpen == old(modalOpen)
        && banners == old(banners) && loading == old(loading)
      ensures old(imgUrl) != "" ==>
        calls == old(calls) + [SaveCall(editMode, selectedBanner, BannerPayload(old(form), old(imgUrl)))]
          + if reply.Success? then [FetchList] else []
      ensures old(imgUrl) != "" && reply.Success? ==>
        && form == DefaultForm && imgUrl == "" && !modalOpen && !loading
        && banners == (if refetch.Success? then refetch.data else old(banners))
        && notices == old(notices) + [Succeeded(reply.data)] + match refetch
             case Success(_) => []
             case Failure(message) => [Failed(message)]
             case Thrown => [Failed("Failed to fetch banners")]
      ensures old(imgUrl) != "" && !reply.Success? ==>
        && form == old(form) && imgUrl == old(imgUrl) && modalOpen == old(modalOpen)
        && banners == old(banners) && loading == old(loading)
        && notices == old(notices) + [if reply.Failure? then Failed(reply.message) else Failed("Something went wrong")]
    {
      if imgUrl == "" {
        notices := notices + [Failed("Please upload an image first!")];
        return;
      }
      var payload := BannerPayload(form, imgUrl);
      calls := calls + [SaveCall(editMode, selectedBanner, payload)];
      match reply
      case Success(message) =>
        notices := notices + [Succeeded(message)];
        modalOpen := false;
        form := DefaultForm;
        imgUrl := "";
        Fetch(refetch);
      case Failure(message) =>
        notices := notices + [Failed(message)];
      case Thrown =>
        notices := notices + [Failed("Something went wrong")];
    }

    /** `handleDelete(id)`: asks first; deletes the record only, its image is not released. */
    method Delete(id: string, confirmed: bool, reply: Reply<()>, refetch: Reply<seq<BannerRecord>>)
      modifies this`banners, this`loading, this`calls, this`notices
      ensures !confirmed ==>
        calls == old(calls) + [Confirm("Are you sure you want to delete this banner?")]
        && banners == old(banners) && loading == old(loading) && notices == old(notices)
      ensures confirmed ==>
        && calls == old(calls) + [Confirm("Are you sure you want to delete this banner?"), Api.Delete(id)]
             + (if reply.Success? then [FetchList] else [])
        && banners == (if reply.Success? && refetch.Success? then refetch.data else old(banners))
        && loading == (if reply.Success? then false else old(loading))
        && notices == old(notices) + match reply
             case Success(_) =>
               [Succeeded("Banner deleted successfully")] + (match refetch
                 case Success(_) => []
                 case Failure(message) => [Failed(message)]
                 case Thrown => [Failed("Failed to fetch banners")])
             case Failure(message) => [Failed(message)]
             case Thrown => [Failed("Delete failed")]
    {
      calls := calls + [Confirm("Are you sure you want to delete this banner?")];
      if !confirmed {
        return;
      }
      calls := calls + [Api.Delete(id)];
      match reply
      case Success(_) =>
        notices := notices + [Succeeded("Banner deleted successfully")];
        Fetch(refetch);
      case Failure(message) =>
        notices := notices + [Failed(message)];
      case Thrown =>
        notices := notices + [Failed("Delete failed")];
    }

    /**
     * `openModal(banner)`: with a banner, loads it and its image and enters
     * edit mode; without one, a default create form with an empty slot.
     */
    method OpenModal(banner: Option<BannerRecord>)
      modifies this`editMode, this`selectedBanner, this`imgUrl, this`form, this`modalOpen
      ensures modalOpen
      ensures banner.Some? ==>
        editMode && selectedBanner == banner && imgUrl == banner.value.img && form == FormOf(banner.value)
      ensures banner.None? ==>
        !editMode && selectedBanner == None && imgUrl == "" && form == DefaultForm
    {
      if banner.Some? {
        editMode := true;
        selectedBanner := banner;
        imgUrl := banner.value.img;
        form := FormOf(banner.value);
      } else {
        editMode := false;
        selectedBanner := None;
        form := DefaultForm;
        imgUrl := "";
      }
      modalOpen := true;
    }

    /** The modal's Cancel button: closes it and keeps the buffer. */
    method CloseModal()
      modifies this`modalOpen
      ensures !modalOpen
    {
      modalOpen := false;
    }
  }
}
