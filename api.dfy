/**
 * Vocabulary shared by every admin page: the answer of an awaited API helper,
 * the requests a page sends to its collaborators (the remote API and the
 * browser's confirmation dialog), and the notifications it raises.
 */
module Api {

  datatype Option<+T> = None | Some(value: T)

  /**
   * The outcome of one awaited API helper call.
   * `Failure("")` is a failed reply that carries no message;
   * `Thrown` is a rejected promise (the helper threw).
   */
  datatype Reply<+T> = Success(data: T) | Failure(message: string) | Thrown

  /** A request leaving the page: a remote call, or the `window.confirm` dialog. */
  datatype Call<+P> =
    | FetchList
    | FetchOne(id: string)
    | Create(payload: P)
    | Update(id: string, payload: P)
    | Delete(id: string)
    | DeleteMany(ids: seq<string>)
    | UploadImage
    | DeleteImages(urls: seq<string>)
    | Confirm(prompt: string)

  /** `successNotification(text)` and `errorNotification(text)`. */
  datatype Notice = Succeeded(text: string) | Failed(text: string)

  /** The JavaScript idiom `res?.message || fallback`: an empty or absent message falls back. */
  function MessageOr(message: string, fallback: string): (r: string)
    ensures message != "" ==> r == message
    ensures message == "" ==> r == fallback
  {
    if message != "" then message else fallback
  }

  /**
   * The JavaScript test `if (editingId)`: the record id to update, or None
   * when the page must create (null, or the falsy empty string).
   */
  function EditTarget(editingId: Option<string>): (r: Option<string>)
    ensures r.Some? <==> editingId.Some? && editingId.value != ""
    ensures r.Some? ==> r == editingId
  {
    match editingId
    case Some(id) => if id != "" then Some(id) else None
    case None => None
  }

  /**
   * The save request of a create-or-edit form: an update of the record being
   * edited when the edit id is truthy, otherwise a create.
   */
  function Save<P>(editingId: Option<string>, payload: P): (r: Call<P>)
    ensures r.Update? <==> editingId.Some? && editingId.value != ""
    ensures r.Update? ==> r == Update(editingId.value, payload)
    ensures !r.Update? ==> r == Create(payload)
  {
    match EditTarget(editingId)
    case Some(id) => Update(id, payload)
    case None => Create(payload)
  }
}
