/**
 * The Enquiries list page: a cached enquiry list with delete, the route to
 * one enquiry, and the date cell's empty guard.
 */
module Enquiries {
  import opened Api

  /** An enquiry as the backend returns it; timestamps are opaque strings. */
  datatype Enquiry = Enquiry(
    id: string, name: string, email: string, phone: string, companyName: Option<string>,
    message: string, isOpened: bool, createdAt: Option<string>, openedAt: Option<string>)

  const ViewPrefix := "/mec-admin/enquiries/"

  /** `handleView(id)`: the route of one enquiry. */
  function ViewPath(id: string): (path: string)
    ensures |path| == |ViewPrefix| + |id|
    ensures path[..|ViewPrefix|] == ViewPrefix && path[|ViewPrefix|..] == id
  {
    ViewPrefix + id
  }

  /** The `:id` parameter the single-enquiry route reads back from a path. */
  function RouteId(path: string): (id: Option<string>)
    ensures id.Some? ==> ViewPath(id.value) == path && id.value != "" && '/' !in id.value
  {
    if |path| > |ViewPrefix| && path[..|ViewPrefix|] == ViewPrefix && '/' !in path[|ViewPrefix|..]
    then Some(path[|ViewPrefix|..])
    else None
  }

  /** Navigating to an enquiry opens that enquiry's page. */
  lemma RouteOfView(id: string)
    requires id != "" && '/' !in id
    ensures RouteId(ViewPath(id)) == Some(id)
  {
    assert ViewPath(id)[|ViewPrefix|..] == id;
  }

  /**
   * `formatDateTime(dateStr)`: "-" for an empty or missing date; otherwise
   * the locale rendering, which is given as `rendered`.
   */
  function FormatDateTime(dateStr: Option<string>, rendered: string): (r: string)
    ensures dateStr.None? || dateStr.value == "" ==> r == "-"
    ensures dateStr.Some? && dateStr.value != "" ==> r == rendered
  {
    if dateStr.None? || dateStr.value == "" then "-" else rendered
  }

  /** The page state of the Enquiries list. */
  class EnquiriesPage {
    var enquiries: seq<Enquiry>
    var loading: bool
    ghost var calls: seq<Call<()>>
    ghost var notices: seq<Notice>

    constructor ()
      ensures enquiries == [] && !loading && calls == [] && notices == []
    {
      enquiries, loading := [], false;
      calls, notices := [], [];
    }

    /** `fetchEnquiries`: success replaces the list; failures and throws leave it; loading ends false. */
    method Fetch(reply: Reply<seq<Enquiry>>)
      modifies this`enquiries, this`loading, this`calls, this`notices
      ensures calls == old(calls) + [FetchList]
      ensures enquiries == if reply.Success? then reply.data else old(enquiries)
      ensures notices == old(notices) + match reply
        case Success(_) => []
        case Failure(message) => [Failed(message)]
        case Thrown => [Failed("Failed to fetch enquiries")]
      ensures !loading
    {
      loading := true;
      calls := calls + [FetchList];
      match reply {
        case Success(list) =>
          enquiries := list;
        case Failure(message) =>
          notices := notices + [Failed(message)];
        case Thrown =>
          notices := notices + [Failed("Failed to fetch enquiries")];
      }
      loading := false;
    }

    /** `handleDelete(id)`: asks first, with no call when declined; success refetches. */
    method Delete(id: string, confirmed: bool, reply: Reply<()>, refetch: Reply<seq<Enquiry>>)
      modifies this`enquiries, this`loading, this`calls, this`notices
      ensures !confirmed ==>
        calls == old(calls) + [Confirm("Are you sure you want to delete this enquiry?")]
        && enquiries == old(enquiries) && loading == old(loading) && notices == old(notices)
      ensures confirmed ==>
        && calls == old(calls) + [Confirm("Are you sure you want to delete this enquiry?"), Api.Delete(id)]
             + (if reply.Success? then [FetchList] else [])
        && enquiries == (if reply.Success? && refetch.Success? then refetch.data else old(enquiries))
        && loading == (if reply.Success? then false else old(loading))
        && notices == old(notices) + match reply
             case Success(_) =>
               [Succeeded("Enquiry deleted successfully")] + (match refetch
                 case Success(_) => []
                 case Failure(message) => [Failed(message)]
                 case Thrown => [Failed("Failed to fetch enquiries")])
             case Failure(message) => [Failed(message)]
             case Thrown => [Failed("Failed to delete enquiry")]
    {
      calls := calls + [Confirm("Are you sure you want to delete this enquiry?")];
      if !confirmed {
        return;
      }
      calls := calls + [Api.Delete(id)];
      match reply {
        case Success(_) =>
          notices := notices + [Succeeded("Enquiry deleted successfully")];
          Fetch(refetch);
        case Failure(message) =>
          notices := notices + [Failed(message)];
        case Thrown =>
          notices := notices + [Failed("Failed to delete enquiry")];
      }
    }
  }
}
