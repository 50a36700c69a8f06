/**
 * The Works editor: a cached list of works, each a title and a list of info
 * blocks (heading, details, image). Blocks are mutable objects: the handlers
 * assign their fields in place, and editing a work puts the cached record's
 * own block objects into the form.
 */
module Work {
  import opened Api
  import opened JsArrays

  /** One info block of a work. Its image field is a slot: "" or one uploaded URL. */
  class InfoBlock {
    var heading: string
    var details: string
    var img: string

    /** `{ heading: "", details: "", img: "" }` */
    constructor Empty()
      ensures heading == "" && details == "" && img == ""
    {
      heading, details, img := "", "", "";
    }
  }

  /** The block fields that have a text input. */
  datatype BlockField = Heading | Details

  /** A work as held in the cached list; its blocks are shared objects. */
  datatype WorkRecord = WorkRecord(id: string, title: string, info: seq<InfoBlock>)

  /** The contents of a block at the moment the form is serialised. */
  datatype BlockValue = BlockValue(heading: string, details: string, img: string)

  /** What `handleSubmit` sends: the form as it is, with no validation or filtering. */
  datatype WorkPayload = WorkPayload(title: string, info: seq<BlockValue>)

  function Values(info: seq<InfoBlock>): (r: seq<BlockValue>)
    reads info
    ensures |r| == |info|
    ensures forall i :: 0 <= i < |info| ==> r[i] == BlockValue(info[i].heading, info[i].details, info[i].img)
  {
    seq(|info|, i requires 0 <= i < |info| reads info => BlockValue(info[i].heading, info[i].details, info[i].img))
  }

  /** The page state of the Works editor. */
  class WorkPage {
    var works: seq<WorkRecord>
    var loading: bool
    var editingId: Option<string>
    var showModal: bool
    // the form buffer: `form.title` and `form.info`
    var title: string
    var info: seq<InfoBlock>
    ghost var calls: seq<Call<WorkPayload>>
    ghost var notices: seq<Notice>

    /** The initial and reset buffer: an empty title and one empty block. */
    predicate IsBlankForm()
      reads this, info
    {
      title == "" && |info| == 1 && info[0].heading == "" && info[0].details == "" && info[0].img == ""
    }

    constructor ()
      ensures works == [] && !loading && editingId == None && !showModal
      ensures IsBlankForm() && fresh(info[0])
      ensures calls == [] && notices == []
    {
      var block := new InfoBlock.Empty();
      works, loading, editingId, showModal := [], false, None, false;
      title, info := "", [block];
      calls, notices := [], [];
    }

    /** The upload control of block `index` is rendered only while its slot is empty. */
    predicate UploadOffered(index: nat)
      requires index < |info|
      reads this, info
    {
      info[index].img == ""
    }

    /** A remove button is rendered only while there is more than one block. */
    predicate RemoveOffered()
      reads this
    {
      |info| > 1
    }

    /** `fetchWorks`: success replaces the list with the data, or `[]` when it is missing. */
    method Fetch(reply: Reply<Option<seq<WorkRecord>>>)
      modifies this`works, this`loading, this`calls, this`notices
      ensures calls == old(calls) + [FetchList]
      ensures works == match reply
        case Success(Some(list)) => list
        case Success(None) => []
        case _ => old(works)
      ensures notices == old(notices) + if reply.Failure? then [Failed("Failed to fetch works")] else []
      ensures loading == reply.Thrown?
    {
      loading := true;
      calls := calls + [FetchList];
      if reply.Thrown? {
        return;
      }
      if reply.Success? {
        works := if reply.data.Some? then reply.data.value else [];
      } else {
        notices := notices + [Failed("Failed to fetch works")];
      }
      loading := false;
    }

    /** `handleChange(e)` without a block field: the `title` input. */
    method HandleTitleChange(value: string)
      modifies this`title
      ensures title == value
    {
      title := value;
    }

    /** `handleChange(e, index, field)`: assigns one field of block `index` in place. */
    method HandleBlockChange(index: nat, field: BlockField, value: string)
      requires index < |info|
      modifies info[index]
      ensures field == Heading ==> info[index].heading == value && info[index].details == old(info[index].details)
      ensures field == Details ==> info[index].details == value && info[index].heading == old(info[index].heading)
      ensures info[index].img == old(info[index].img)
    {
      var block := info[index];
      if field == Heading {
        block.heading := value;
      } else {
        block.details := value;
      }
    }

    /**
     * `handleUpload(e, index)`: with a file chosen, uploads it; a successful
     * reply with at least one file puts the first URL in block `index`'s slot.
     * Only the block's upload control calls it, and that control exists only
     * while the block's slot is empty, so a stored URL never replaces another.
     */
    method Upload(index: nat, filePresent: bool, reply: Reply<seq<string>>)
      requires index < |info| && UploadOffered(index)
      modifies info[index], this`calls, this`notices
      ensures info[index].img != "" ==>
        filePresent && reply.Success? && |reply.data| > 0 && info[index].img == reply.data[0]
      ensures info[index].heading == old(info[index].heading) && info[index].details == old(info[index].details)
      ensures !filePresent ==> calls == old(calls) && notices == old(notices) && info[index].img == old(info[index].img)
      ensures filePresent ==>
        && calls == old(calls) + [UploadImage]
        && info[index].img == (if reply.Success? && |reply.data| > 0 then reply.data[0] else old(info[index].img))
        && notices == old(notices) + [
             if reply.Success? && |reply.data| > 0 then Succeeded("\U{2705} Image uploaded successfully!")
             else if reply.Thrown? then Failed("Image upload failed!")
             else Failed("Upload failed!")]
    {
      if !filePresent {
        return;
      }
      calls := calls + [UploadImage];
      if reply.Success? && |reply.data| > 0 {
        info[index].img := reply.data[0];
        notices := notices + [Succeeded("\U{2705} Image uploaded successfully!")];
      } else if reply.Thrown? {
        notices := notices + [Failed("Image upload failed!")];
      } else {
        notices := notices + [Failed("Upload failed!")];
      }
    }

    /**
     * `handleImageDelete(index)`: releases block `index`'s image; the slot is
     * cleared only when the release succeeds. An empty slot issues nothing.
     */
    method ImageDelete(index: nat, reply: Reply<()>)
      requires index < |info|
      modifies info[index], this`calls, this`notices
      ensures info[index].heading == old(info[index].heading) && info[index].details == old(info[index].details)
      ensures old(info[index].img) == "" ==> calls == old(calls) && notices == old(notices) && info[index].img == ""
      ensures old(info[index].img) != "" ==>
        && calls == old(calls) + [DeleteImages([old(info[index].img)])]
        && info[index].img == (if reply.Success? then "" else old(info[index].img))
        && notices == old(notices) + [
             if reply.Success? then Succeeded("\U{1F5D1}\U{FE0F} Image deleted successfully")
             else if reply.Thrown? then Failed("Delete failed")
             else Failed("Failed to delete image")]
    {
      var url := info[index].img;
      if url == "" {
        return;
      }
      calls := calls + [DeleteImages([url])];
      if reply.Success? {
        info[index].img := "";
        notices := notices + [Succeeded("\U{1F5D1}\U{FE0F} Image deleted successfully")];
      } else if reply.Thrown? {
        notices := notices + [Failed("Delete failed")];
      } else {
        notices := notices + [Failed("Failed to delete image")];
      }
    }

    /** `addInfoBlock`: one new empty block at the end. */
    method AddInfoBlock()
      modifies this`info
      ensures |info| == |old(info)| + 1 && info[..|old(info)|] == old(info)
      ensures fresh(info[|info| - 1])
      ensures info[|info| - 1].heading == "" && info[|info| - 1].details == "" && info[|info| - 1].img == ""
    {
      var block := new InfoBlock.Empty();
      info := info + [block];
    }

    /** `removeInfoBlock(index)`: drops block `index`, the others keep their order. */
    method RemoveInfoBlock(index: int)
      modifies this`info
      ensures info == Without(old(info), index)
      ensures 0 <= index < |old(info)| ==> info == old(info)[..index] + old(info)[index + 1..]
      ensures old(RemoveOffered()) && 0 <= index < |old(info)| ==> |info| == |old(info)| - 1 >= 1
    {
      WithoutIsSplice(info, index);
      info := Without(info, index);
    }

    /** `resetForm`: a blank buffer, no edit id, modal closed. */
    method ResetForm()
      modifies this`title, this`info, this`editingId, this`showModal
      ensures IsBlankForm() && fresh(info[0])
      ensures editingId == None && !showModal
    {
      var block := new InfoBlock.Empty();
      title, info := "", [block];
      editingId := None;
      showModal := false;
    }

    /** The "+ Add Work" button: opens the modal on whatever the buffer holds. */
    method OpenModal()
      modifies this`showModal
      ensures showModal
    {
      showModal := true;
    }

    /**
     * `handleSubmit`: sends the buffer as it is, to edit when the edit id is
     * set, otherwise to add. Success resets the form and refetches; failure
     * keeps the buffer.
     */
    method Submit(reply: Reply<()>, refetch: Reply<Option<seq<WorkRecord>>>)
      modifies this
      ensures calls == old(calls) + [Save(old(editingId), WorkPayload(old(title), Values(old(info))))]
        + if reply.Success? then [FetchList] else []
      ensures reply.Success? ==>
        && IsBlankForm() && fresh(info[0]) && editingId == None && !showModal
        && works == (match refetch
             case Success(Some(list)) => list
             case Success(None) => []
             case _ => old(works))
        && notices == old(notices)
             + [Succeeded(if EditTarget(old(editingId)).Some? then "Work updated successfully!" else "Work added successfully!")]
             + (if refetch.Failure? then [Failed("Failed to fetch works")] else [])
      ensures !reply.Success? ==>
        && title == old(title) && info == old(info) && editingId == old(editingId) && showModal == old(showModal)
        && works == old(works)
        && notices == old(notices) + if reply.Failure? then [Failed(MessageOr(reply.message, "Operation failed"))] else []
      ensures loading == reply.Thrown?
    {
      var payload := WorkPayload(title, Values(info));
      ghost var sent := calls + [Save(editingId, payload)];
      loading := true;
      calls := sent;
      if reply.Thrown? {
        return;
      }
      if reply.Success? {
        var text := if EditTarget(editingId).Some? then "Work updated successfully!" else "Work added successfully!";
        notices := notices + [Succeeded(text)];
        ResetForm();
        var block := info[0];
        assert block.heading == "" && block.details == "" && block.img == "";
        Fetch(refetch);
        assert info == [block];
        assert calls == sent + [FetchList];
      } else {
        notices := notices + [Failed(MessageOr(reply.message, "Operation failed"))];
      }
      loading := false;
    }

    /** `handleDelete(id)`: asks first; deletes the record only, its block images are not released. */
    method Delete(id: string, confirmed: bool, reply: Reply<()>, refetch: Reply<Option<seq<WorkRecord>>>)
      modifies this`works, this`loading, this`calls, this`notices
      ensures !confirmed ==>
        calls == old(calls) + [Confirm("Are you sure you want to delete this work?")]
        && works == old(works) && loading == old(loading) && notices == old(notices)
      ensures confirmed ==>
        && calls == old(calls) + [Confirm("Are you sure you want to delete this work?"), Api.Delete(id)]
             + (if reply.Success? then [FetchList] else [])
        && works == (match (reply, refetch)
             case (Success(_), Success(Some(list))) => list
             case (Success(_), Success(None)) => []
             case _ => old(works))
        && notices == old(notices)
             + (if reply.Success? then [Succeeded("Work deleted successfully")] else [])
             + (if reply.Success? && refetch.Failure? then [Failed("Failed to fetch works")] else [])
             + (if reply.Failure? then [Failed(MessageOr(reply.message, "Failed to delete work"))] else [])
        && loading == reply.Thrown?
    {
      calls := calls + [Confirm("Are you sure you want to delete this work?")];
      if !confirmed {
        return;
      }
      loading := true;
      calls := calls + [Api.Delete(id)];
      if reply.Thrown? {
        return;
      }
      if reply.Success? {
        notices := notices + [Succeeded("Work deleted successfully")];
        Fetch(refetch);
      } else {
        notices := notices + [Failed(MessageOr(reply.message, "Failed to delete work"))];
      }
      loading := false;
    }

    /**
     * `handleEdit(work)`: the buffer takes the record's own block objects,
     * not copies, so later block edits are visible through the cached list.
     */
    method HandleEdit(work: WorkRecord)
      modifies this`title, this`info, this`editingId, this`showModal
      ensures title == work.title && info == work.info
      ensures editingId == Some(work.id) && showModal
    {
      title, info := work.title, work.info;
      editingId := Some(work.id);
      showModal := true;
    }
  }

  /**
   * Editing a block of a cached work and then cancelling (`resetForm`) leaves
   * the edit in the cached record: the buffer and the list shared the block.
   */
  method CancelledEditStaysInCache(page: WorkPage, k: nat, value: string)
    requires k < |page.works| && |page.works[k].info| > 0
    modifies page, page.works[k].info[0]
    ensures page.works == old(page.works)
    ensures page.works[k].info[0].heading == value
    ensures page.IsBlankForm() && page.editingId == None
  {
    var work := page.works[k];
    page.HandleEdit(work);
    page.HandleBlockChange(0, Heading, value);
    page.ResetForm();
  }
}
