/**
 * The Projects editor: a cached project list and a six-field form whose
 * `project_image` field is an image slot.
 */
module Projects {
  import opened Api

  /**
   * What a reference input of the buffer holds: the text of its select, the
   * populated record object itself, or `null`/`undefined`.
   */
  datatype RefValue = Text(text: string) | WholeRecord | Absent

  /** JavaScript falsiness of a reference value: the empty string or nothing. */
  predicate Falsy(v: RefValue) {
    v == Text("") || v.Absent?
  }

  /** The form buffer, and also the payload (`{ ...form }`). */
  datatype ProjectForm = ProjectForm(
    projectName: string, shortDescription: string, projectUrl: string,
    clientId: RefValue, workId: RefValue, projectImage: string)

  /** The inputs wired to `handleChange`. */
  datatype ProjectField = ProjectName | ShortDescription | ProjectUrl | ClientId | WorkId

  /**
   * A reference field of a fetched project: populated by the backend with the
   * referenced record (we keep its `_id`), a raw id, or missing.
   */
  datatype Ref = Populated(id: string) | RawId(raw: string) | Missing

  datatype ProjectRecord = ProjectRecord(
    id: string, projectName: string, shortDescription: string, projectUrl: string,
    client: Ref, work: Ref, projectImage: Option<string>)

  const EmptyForm := ProjectForm("", "", "", Text(""), Text(""), "")

  /** The check in `handleSubmit`: some required field is empty. */
  predicate MissingRequired(f: ProjectForm) {
    f.projectName == "" || f.shortDescription == "" || f.projectUrl == ""
    || Falsy(f.clientId) || Falsy(f.workId) || f.projectImage == ""
  }

  /** `handleChange`: sets the named field only. */
  function SetField(f: ProjectForm, field: ProjectField, value: string): (r: ProjectForm)
    ensures r.projectImage == f.projectImage
    ensures field == ProjectName ==> r == f.(projectName := value)
    ensures field == ShortDescription ==> r == f.(shortDescription := value)
    ensures field == ProjectUrl ==> r == f.(projectUrl := value)
    ensures field == ClientId ==> r == f.(clientId := Text(value))
    ensures field == WorkId ==> r == f.(workId := Text(value))
  {
    match field
    case ProjectName => f.(projectName := value)
    case ShortDescription => f.(shortDescription := value)
    case ProjectUrl => f.(projectUrl := value)
    case ClientId => f.(clientId := Text(value))
    case WorkId => f.(workId := Text(value))
  }

  /**
   * `ref?._id || ref`: a populated reference gives its id when that id is
   * truthy and otherwise the record object itself; a raw id is kept as it is
   * (a string has no `_id`); a missing one stays missing.
   */
  function Flatten(r: Ref): (v: RefValue)
    ensures r.Populated? && r.id != "" ==> v == Text(r.id)
    ensures r == Populated("") ==> v == WholeRecord
    ensures r.RawId? ==> v == Text(r.raw)
    ensures r.Missing? ==> v == Absent
    ensures Falsy(v) <==> r.Missing? || r == RawId("")
  {
    match r
    case Populated(id) => if id != "" then Text(id) else WholeRecord
    case RawId(raw) => Text(raw)
    case Missing => Absent
  }

  /** The buffer `handleEdit` loads from a record. */
  function FormOf(p: ProjectRecord): (f: ProjectForm)
    ensures f.projectName == p.projectName && f.shortDescription == p.shortDescription
    ensures f.projectUrl == p.projectUrl
    ensures f.clientId == Flatten(p.client) && f.workId == Flatten(p.work)
    ensures f.projectImage == if p.projectImage.Some? then p.projectImage.value else ""
  {
    ProjectForm(p.projectName, p.shortDescription, p.projectUrl, Flatten(p.client), Flatten(p.work),
      match p.projectImage case Some(url) => url case None => "")
  }

  /**
   * A record loaded for edit passes the required check unedited exactly when
   * its text fields and image are non-empty and neither reference is missing
   * or an empty raw id. A populated reference passes even with an empty `_id`,
   * since the record object itself is then held.
   */
  lemma EditedRecordNeedsImage(p: ProjectRecord)
    ensures p.projectImage.None? || p.client.Missing? || p.work.Missing? ==> MissingRequired(FormOf(p))
    ensures !MissingRequired(FormOf(p)) <==>
      && p.projectName != "" && p.shortDescription != "" && p.projectUrl != ""
      && p.client != Missing && p.client != RawId("") && p.work != Missing && p.work != RawId("")
      && p.projectImage.Some? && p.projectImage.value != ""
  {
  }

  /** The page state of the Projects editor. */
  class ProjectsPage {
    var projects: seq<ProjectRecord>
    var loading: bool
    var showModal: bool
    var editingId: Option<string>
    var form: ProjectForm
    ghost var calls: seq<Call<ProjectForm>>
    ghost var notices: seq<Notice>

    constructor ()
      ensures projects == [] && !loading && !showModal && editingId == None && form == EmptyForm
      ensures calls == [] && notices == []
    {
      projects, loading, showModal := [], false, false;
      editingId, form := None, EmptyForm;
      calls, notices := [], [];
    }

    /** The upload control is rendered only while the image slot is empty. */
    predicate UploadOffered()
      reads this
    {
      form.projectImage == ""
    }

    /** `fetchProjects`: a successful reply replaces the list, any other leaves it. */
    method Fetch(reply: Reply<seq<ProjectRecord>>)
      modifies this`projects, this`loading, this`calls, this`notices
      ensures calls == old(calls) + [FetchList]
      ensures projects == if reply.Success? then reply.data else old(projects)
      ensures notices == old(notices)
        + if reply.Failure? then [Failed(MessageOr(reply.message, "Failed to fetch projects"))] else []
      ensures loading == reply.Thrown?
    {
      loading := true;
      calls := calls + [FetchList];
      if reply.Thrown? {
        return;
      }
      if reply.Success? {
        projects := reply.data;
      } else {
        notices := notices + [Failed(MessageOr(reply.message, "Failed to fetch projects"))];
      }
      loading := false;
    }

    method HandleChange(field: ProjectField, value: string)
      modifies this`form
      ensures form == SetField(old(form), field, value)
    {
      form := SetField(form, field, value);
    }

    /**
     * `handleUpload`: with a file chosen, uploads it; a successful reply with
     * at least one file puts the first URL in the image slot and changes
     * nothing else. Only the upload control calls it, and that control exists
     * only while the slot is empty, so a stored URL never replaces another one.
     */
    method Upload(filePresent: bool, reply: Reply<seq<string>>)
      requires UploadOffered()
      modifies this`form, this`calls, this`notices
      ensures form.projectImage != "" ==>
        filePresent && reply.Success? && |reply.data| > 0 && form.projectImage == reply.data[0]
      ensures !filePresent ==> form == old(form) && calls == old(calls) && notices == old(notices)
      ensures filePresent ==>
        && calls == old(calls) + [UploadImage]
        && form == (if reply.Success? && |reply.data| > 0 then old(form).(projectImage := reply.data[0]) else old(form))
        && notices == old(notices) + [
             if reply.Success? && |reply.data| > 0 then Succeeded("\U{2705} Image uploaded successfully!")
             else if reply.Thrown? then Failed("Image upload failed!")
             else Failed("Upload failed!")]
    {
      if !filePresent {
        return;
      }
      calls := calls + [UploadImage];
      if reply.Success? && |reply.data| > 0 {
        form := form.(projectImage := reply.data[0]);
        notices := notices + [Succeeded("\U{2705} Image uploaded successfully!")];
      } else if reply.Thrown? {
        notices := notices + [Failed("Image upload failed!")];
      } else {
        notices := notices + [Failed("Upload failed!")];
      }
    }

    /**
     * `handleImageDelete`: releases the slot's image; the slot is cleared only
     * when the release succeeds. An empty slot issues nothing.
     */
    method ImageDelete(reply: Reply<()>)
      modifies this`form, this`calls, this`notices
      ensures old(form.projectImage) == "" ==> form == old(form) && calls == old(calls) && notices == old(notices)
      ensures old(form.projectImage) != "" ==>
        && calls == old(calls) + [DeleteImages([old(form.projectImage)])]
        && form == (if reply.Success? then old(form).(projectImage := "") else old(form))
        && notices == old(notices) + [
             if reply.Success? then Succeeded("\U{1F5D1}\U{FE0F} Image deleted successfully")
             else if reply.Thrown? then Failed("Delete failed")
             else Failed("Failed to delete image")]
    {
      if form.projectImage == "" {
        return;
      }
      calls := calls + [DeleteImages([form.projectImage])];
      if reply.Success? {
        notices := notices + [Succeeded("\U{1F5D1}\U{FE0F} Image deleted successfully")];
        form := form.(projectImage := "");
      } else if reply.Thrown? {
        notices := notices + [Failed("Delete failed")];
      } else {
        notices := notices + [Failed("Failed to delete image")];
      }
    }

    /**
     * `handleSubmit`: a form with an empty required field is refused before
     * any call; otherwise the form itself is sent, to edit when the edit id is
     * set, else to add. Success resets and refetches; failure keeps the form.
     */
    method Submit(reply: Reply<()>, refetch: Reply<seq<ProjectRecord>>)
      modifies this
      ensures MissingRequired(old(form)) ==>
        && calls == old(calls) && notices == old(notices) + [Failed("All fields are required!")]
        && form == old(form) && editingId == old(editingId) && showModal == old(showModal)
        && projects == old(projects) && loading == old(loading)
      ensures !MissingRequired(old(form)) ==>
        && calls == old(calls) + [Save(old(editingId), old(form))] + (if reply.Success? then [FetchList] else [])
        && loading == reply.Thrown?
      ensures !MissingRequired(old(form)) && reply.Success? ==>
        && form == EmptyForm && editingId == None && !showModal
        && projects == (if refetch.Success? then refetch.data else old(projects))
        && notices == old(notices)
             + [Succeeded(if EditTarget(old(editingId)).Some? then "Project updated successfully!" else "Project added successfully!")]
             + (if refetch.Failure? then [Failed(MessageOr(refetch.message, "Failed to fetch projects"))] else [])
      ensures !MissingRequired(old(form)) && !reply.Success? ==>
        && form == old(form) && editingId == old(editingId) && showModal == old(showModal)
        && projects == old(projects)
        && notices == old(notices) + if reply.Failure? then [Failed(MessageOr(reply.message, "Operation failed"))] else []
    {
      if MissingRequired(form) {
        notices := notices + [Failed("All fields are required!")];
        return;
      }
      var payload := form;
      loading := true;
      calls := calls + [Save(editingId, payload)];
      if reply.Thrown? {
        return;
      }
      if reply.Success? {
        var text := if EditTarget(editingId).Some? then "Project updated successfully!" else "Project added successfully!";
        notices := notices + [Succeeded(text)];
        ResetForm();
        Fetch(refetch);
      } else {
        notices := notices + [Failed(MessageOr(reply.message, "Operation failed"))];
      }
      loading := false;
    }

    /** `handleEdit(project)`: loads the record with its references flattened to ids. */
    method HandleEdit(project: ProjectRecord)
      modifies this`form, this`editingId, this`showModal
      ensures form == FormOf(project) && editingId == Some(project.id) && showModal
    {
      form := FormOf(project);
      editingId := Some(project.id);
      showModal := true;
    }

    /**
     * `handleDelete(id, imgUrl)`: asks first; the record's image is released
     * only after the record delete succeeded, and only when it has one.
     */
    method Delete(id: string, imgUrl: string, confirmed: bool,
                  reply: Reply<()>, release: Reply<()>, refetch: Reply<seq<ProjectRecord>>)
      modifies this`projects, this`loading, this`calls, this`notices
      ensures !confirmed ==>
        calls == old(calls) + [Confirm("Are you sure you want to delete this project?")]
        && projects == old(projects) && loading == old(loading) && notices == old(notices)
      ensures confirmed && !reply.Success? ==>
        && calls == old(calls) + [Confirm("Are you sure you want to delete this project?"), Api.Delete(id)]
        && projects == old(projects)
        && notices == old(notices) + (if reply.Failure? then [Failed(MessageOr(reply.message, "Failed to delete project"))] else [])
        && loading == reply.Thrown?
      ensures confirmed && reply.Success? && imgUrl != "" && release.Thrown? ==>
        && calls == old(calls) + [Confirm("Are you sure you want to delete this project?"), Api.Delete(id), DeleteImages([imgUrl])]
        && projects == old(projects) && notices == old(notices) && loading
      ensures confirmed && reply.Success? && (imgUrl == "" || !release.Thrown?) ==>
        && calls == old(calls) + [Confirm("Are you sure you want to delete this project?"), Api.Delete(id)]
             + (if imgUrl != "" then [DeleteImages([imgUrl])] else []) + [FetchList]
        && projects == (if refetch.Success? then refetch.data else old(projects))
        && notices == old(notices) + [Succeeded("Project deleted successfully!")]
             + (if refetch.Failure? then [Failed(MessageOr(refetch.message, "Failed to fetch projects"))] else [])
        && !loading
    {
      calls := calls + [Confirm("Are you sure you want to delete this project?")];
      if !confirmed {
        return;
      }
      loading := true;
      calls := calls + [Api.Delete(id)];
      if reply.Thrown? {
        return;
      }
      if reply.Success? {
        if imgUrl != "" {
          calls := calls + [DeleteImages([imgUrl])];
          if release.Thrown? {
            return;
          }
        }
        notices := notices + [Succeeded("Project deleted successfully!")];
        Fetch(refetch);
      } else {
        notices := notices + [Failed(MessageOr(reply.message, "Failed to delete project"))];
      }
      loading := false;
    }

    /** `resetForm`: an all-empty buffer, no edit id, modal closed. */
    method ResetForm()
      modifies this`form, this`editingId, this`showModal
      ensures form == EmptyForm && editingId == None && !showModal
    {
      form := EmptyForm;
      editingId := None;
      showModal := false;
    }

    /** The "+ Add Project" button: opens the modal on whatever the buffer holds. */
    method OpenModal()
      modifies this`showModal
      ensures showModal
    {
      showModal := true;
    }
  }
}
