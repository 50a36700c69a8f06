/**
 * The single-enquiry page: loads one enquiry by its route id and marks it
 * opened the first time it is viewed.
 */
module SingleEnquiry {
  import opened Api
  import opened Enquiries

  /** The body of the mark-opened edit; `openedAt` is the clock's reading. */
  datatype EnquiryPatch = EnquiryPatch(isOpened: bool, openedAt: string)

  /** The "Opened At" line is rendered only when the enquiry has an opening time. */
  predicate OpenedAtShown(e: Enquiry) {
    e.openedAt.Some? && e.openedAt.value != ""
  }

  /** `enquiry.company_name || "-"` */
  function CompanyText(e: Enquiry): (text: string)
    ensures text == "-" <==> e.companyName.None? || e.companyName.value in {"", "-"}
    ensures e.companyName.Some? && e.companyName.value != "" ==> text == e.companyName.value
  {
    match e.companyName
    case Some(name) => if name != "" then name else "-"
    case None => "-"
  }

  /** The page state of the single-enquiry view. */
  class EnquiryView {
    const id: string
    var enquiry: Option<Enquiry>
    ghost var calls: seq<Call<EnquiryPatch>>
    ghost var notices: seq<Notice>

    constructor (routeId: string)
      ensures id == routeId && enquiry == None && calls == [] && notices == []
      ensures ShowsLoading()
    {
      id := routeId;
      enquiry := None;
      calls, notices := [], [];
    }

    /** While no enquiry is stored the page shows only its loading view. */
    predicate ShowsLoading()
      reads this
    {
      enquiry.None?
    }

    /**
     * `fetchEnquiry`: stores exactly the fetched record, then issues the
     * mark-opened edit if and only if that record is not yet opened. The
     * stored record is not updated by the mark, so the "Opened At" line shows
     * only what was fetched. A failed fetch stores nothing and leaves the
     * loading view as it was.
     */
    method FetchEnquiry(reply: Reply<Enquiry>, mark: Reply<()>, now: string)
      modifies this`enquiry, this`calls, this`notices
      ensures reply.Success? ==>
        && enquiry == Some(reply.data)
        && calls == old(calls) + [FetchOne(id)]
             + (if reply.data.isOpened then [] else [Update(id, EnquiryPatch(true, now))])
        && notices == old(notices) + (if !reply.data.isOpened && mark.Thrown? then [Failed("Failed to load enquiry")] else [])
        && !ShowsLoading()
        && (OpenedAtShown(enquiry.value) <==> OpenedAtShown(reply.data))
      ensures !reply.Success? ==>
        && enquiry == old(enquiry)
        && ShowsLoading() == old(ShowsLoading())
        && calls == old(calls) + [FetchOne(id)]
        && notices == old(notices) + [if reply.Failure? then Failed(reply.message) else Failed("Failed to load enquiry")]
    {
      calls := calls + [FetchOne(id)];
      match reply {
        case Success(e) =>
          enquiry := Some(e);
          if !e.isOpened {
            calls := calls + [Update(id, EnquiryPatch(true, now))];
            if mark.Thrown? {
              notices := notices + [Failed("Failed to load enquiry")];
            }
          }
        case Failure(message) =>
          notices := notices + [Failed(message)];
        case Thrown =>
          notices := notices + [Failed("Failed to load enquiry")];
      }
    }
  }
}
