/**
 * The Subscribers page: a cached subscriber list and a selection of ids for
 * bulk deletion.
 */
module Subscribers {
  import opened Api
  import opened JsArrays

  datatype Subscriber = Subscriber(id: string, email: string)

  /** The shapes `res.data` arrives in: an array, an object holding `subscribers`, or anything else. */
  datatype SubscriberData =
    | ListData(items: seq<Subscriber>)
    | ObjectData(subscribers: Option<seq<Subscriber>>)
    | OtherData

  /** The list `fetchSubscribers` stores: the array, else the nested array, else empty. */
  function Normalize(d: SubscriberData): (r: seq<Subscriber>)
    ensures d.ListData? ==> r == d.items
    ensures d.ObjectData? && d.subscribers.Some? ==> r == d.subscribers.value
    ensures d.OtherData? || (d.ObjectData? && d.subscribers.None?) ==> r == []
  {
    match d
    case ListData(items) => items
    case ObjectData(Some(items)) => items
    case _ => []
  }

  /** `subscribers.map((s) => s._id)` */
  function Ids(list: seq<Subscriber>): (r: seq<string>)
    ensures |r| == |list|
    ensures forall i :: 0 <= i < |list| ==> r[i] == list[i].id
  {
    seq(|list|, i requires 0 <= i < |list| => list[i].id)
  }

  /** `toggleSelect(id)`: removes `id` when present, appends it otherwise. */
  function Toggle(selected: seq<string>, id: string): seq<string> {
    if id in selected then Filter(x => x != id, selected) else selected + [id]
  }

  /** After a toggle, `id` is selected exactly when it was not; nothing else changes membership. */
  lemma ToggleMembership(selected: seq<string>, id: string)
    ensures id in Toggle(selected, id) <==> id !in selected
    ensures forall x :: x != id ==> (x in Toggle(selected, id) <==> x in selected)
  {
    FilterMembers(x => x != id, selected);
  }

  /** A toggle never creates a duplicate. */
  lemma ToggleNoDup(selected: seq<string>, id: string)
    requires NoDup(selected)
    ensures NoDup(Toggle(selected, id))
  {
    if id in selected {
      FilterNoDup(x => x != id, selected);
    } else {
      forall i, j | 0 <= i < j < |selected| + 1 ensures (selected + [id])[i] != (selected + [id])[j] {
        if j == |selected| {
          assert (selected + [id])[i] == selected[i];
        }
      }
    }
  }

  /** Toggling an unselected id twice restores the selection exactly. */
  lemma ToggleTwiceAbsent(selected: seq<string>, id: string)
    requires id !in selected
    ensures Toggle(Toggle(selected, id), id) == selected
  {
    var p := (x: string) => x != id;
    FilterAppend(p, selected, [id]);
    FilterKeepsAllIff(p, selected);
    assert Filter(p, [id]) == [];
  }

  /** Toggling a selected id twice keeps the same ids, without duplicates, though it moves `id` to the end. */
  lemma ToggleTwicePresent(selected: seq<string>, id: string)
    requires NoDup(selected) && id in selected
    ensures var twice := Toggle(Toggle(selected, id), id);
      NoDup(twice) && (forall x :: x in twice <==> x in selected) && |twice| == |selected|
      && twice[|twice| - 1] == id
  {
    ToggleMembership(selected, id);
    ToggleNoDup(selected, id);
    var once := Toggle(selected, id);
    ToggleMembership(once, id);
    ToggleNoDup(once, id);
    var twice := Toggle(once, id);
    NoDupCardinality(selected);
    NoDupCardinality(twice);
    assert (set x | x in twice) == (set x | x in selected);
  }

  /** The header checkbox's change handler: all list ids in list order, or none. */
  function SelectAll(checked: bool, list: seq<Subscriber>): (r: seq<string>)
    ensures checked ==> r == Ids(list)
    ensures !checked ==> r == []
  {
    if checked then Ids(list) else []
  }

  /** The header checkbox's `checked` expression: compares lengths only. */
  predicate AllSelected(selected: seq<string>, list: seq<Subscriber>) {
    |selected| > 0 && |selected| == |list|
  }

  lemma SubsetSameSize<T>(a: set<T>, b: set<T>)
    requires a <= b && |a| == |b|
    ensures a == b
  {
    assert |b - a| == |b| - |a| by {
      assert b == a + (b - a);
      assert a !! (b - a);
    }
    assert b - a == {};
  }

  /**
   * With duplicate-free ids and a duplicate-free selection drawn from the
   * list, the length comparison means "the list is non-empty and every one of
   * its ids is selected". With an empty list it is never checked.
   */
  lemma AllSelectedMeansEveryId(selected: seq<string>, list: seq<Subscriber>)
    requires NoDup(selected) && NoDup(Ids(list))
    requires forall x :: x in selected ==> x in Ids(list)
    ensures AllSelected(selected, list) <==> |list| > 0 && forall i :: 0 <= i < |list| ==> list[i].id in selected
  {
    var sel := set x | x in selected;
    var ids := set x | x in Ids(list);
    NoDupCardinality(selected);
    NoDupCardinality(Ids(list));
    assert sel <= ids;
    if AllSelected(selected, list) {
      SubsetSameSize(sel, ids);
      forall i | 0 <= i < |list| ensures list[i].id in selected {
        assert Ids(list)[i] in ids;
      }
    }
    if |list| > 0 && forall i :: 0 <= i < |list| ==> list[i].id in selected {
      assert ids <= sel by {
        forall x | x in ids ensures x in sel {
          var i :| 0 <= i < |Ids(list)| && Ids(list)[i] == x;
        }
      }
      assert sel == ids;
    }
  }

  /** The page state of the Subscribers page. */
  class SubscribersPage {
    var subscribers: seq<Subscriber>
    var loading: bool
    var selected: seq<string>
    ghost var calls: seq<Call<()>>
    ghost var notices: seq<Notice>

    /** Ids are unique, in the list (the backend's) and in the selection (toggle's doing). */
    ghost predicate Distinct()
      reads this
    {
      NoDup(selected) && NoDup(Ids(subscribers))
    }

    /** Every selected id belongs to a listed subscriber. */
    ghost predicate SelectionInList()
      reads this
    {
      forall x :: x in selected ==> x in Ids(subscribers)
    }

    constructor ()
      ensures subscribers == [] && !loading && selected == []
      ensures calls == [] && notices == []
      ensures Distinct() && SelectionInList()
    {
      subscribers, loading, selected := [], false, [];
      calls, notices := [], [];
    }

    /** The "Delete Selected" button is disabled while nothing is selected or a request runs. */
    predicate DeleteDisabled()
      reads this
    {
      |selected| == 0 || loading
    }

    /** `fetchSubscribers`: success stores the normalised list, anything else leaves it. */
    method Fetch(reply: Reply<SubscriberData>)
      requires Distinct()
      requires reply.Success? ==> NoDup(Ids(Normalize(reply.data)))
      modifies this`subscribers, this`loading, this`calls, this`notices
      ensures calls == old(calls) + [FetchList]
      ensures subscribers == if reply.Success? then Normalize(reply.data) else old(subscribers)
      ensures notices == old(notices)
        + if reply.Failure? then [Failed(MessageOr(reply.message, "Failed to load subscribers"))] else []
      ensures loading == reply.Thrown?
      ensures Distinct()
      ensures old(SelectionInList()) && !reply.Success? ==> SelectionInList()
      ensures selected == [] ==> SelectionInList()
    {
      loading := true;
      calls := calls + [FetchList];
      if reply.Thrown? {
        return;
      }
      if reply.Success? {
        subscribers := Normalize(reply.data);
      } else {
        notices := notices + [Failed(MessageOr(reply.message, "Failed to load subscribers"))];
      }
      loading := false;
    }

    /** A row checkbox: toggles that row's id. */
    method ToggleSelect(id: string)
      requires Distinct() && SelectionInList() && id in Ids(subscribers)
      modifies this`selected
      ensures selected == Toggle(old(selected), id)
      ensures id in selected <==> id !in old(selected)
      ensures forall x :: x != id ==> (x in selected <==> x in old(selected))
      ensures Distinct() && SelectionInList()
    {
      ToggleMembership(selected, id);
      ToggleNoDup(selected, id);
      selected := Toggle(selected, id);
    }

    /** The header checkbox: checking selects every listed id, unchecking selects none. */
    method HandleSelectAll(checked: bool)
      requires Distinct()
      modifies this`selected
      ensures selected == SelectAll(checked, subscribers)
      ensures Distinct() && SelectionInList()
      ensures AllSelected(selected, subscribers) <==> checked && |subscribers| > 0
    {
      selected := SelectAll(checked, subscribers);
    }

    /**
     * `handleDelete`: an empty selection only reports an error; otherwise asks
     * first and deletes every selected id in one call. Success clears the
     * selection and refetches; failure keeps the selection.
     */
    method Delete(confirmed: bool, reply: Reply<()>, refetch: Reply<SubscriberData>)
      requires Distinct()
      requires refetch.Success? ==> NoDup(Ids(Normalize(refetch.data)))
      modifies this`subscribers, this`loading, this`selected, this`calls, this`notices
      ensures Distinct()
      ensures old(SelectionInList()) ==> SelectionInList()
      ensures old(selected) == [] ==>
        && calls == old(calls) && notices == old(notices) + [Failed("Please select at least one subscriber to delete.")]
        && selected == old(selected) && subscribers == old(subscribers) && loading == old(loading)
      ensures old(selected) != [] && !confirmed ==>
        && calls == old(calls) + [Confirm("Are you sure you want to delete selected subscribers?")]
        && notices == old(notices)
        && selected == old(selected) && subscribers == old(subscribers) && loading == old(loading)
      ensures old(selected) != [] && confirmed && reply.Success? ==>
        && calls == old(calls) + [Confirm("Are you sure you want to delete selected subscribers?"), DeleteMany(old(selected)), FetchList]
        && selected == [] && !AllSelected(selected, subscribers)
        && subscribers == (if refetch.Success? then Normalize(refetch.data) else old(subscribers))
        && notices == old(notices) + [Succeeded("Subscribers deleted successfully")]
             + (if refetch.Failure? then [Failed(MessageOr(refetch.message, "Failed to load subscribers"))] else [])
        && !loading
      ensures old(selected) != [] && confirmed && !reply.Success? ==>
        && calls == old(calls) + [Confirm("Are you sure you want to delete selected subscribers?"), DeleteMany(old(selected))]
        && selected == old(selected) && subscribers == old(subscribers)
        && notices == old(notices) + (if reply.Failure? then [Failed(MessageOr(reply.message, "Failed to delete subscribers"))] else [])
        && loading == reply.Thrown?
      ensures old(selected) != [] && confirmed ==> (DeleteDisabled() <==> !reply.Failure?)
    {
      if |selected| == 0 {
        notices := notices + [Failed("Please select at least one subscriber to delete.")];
        return;
      }
      calls := calls + [Confirm("Are you sure you want to delete selected subscribers?")];
      if !confirmed {
        return;
      }
      ghost var sent := calls + [DeleteMany(selected)];
      loading := true;
      calls := sent;
      if reply.Thrown? {
        return;
      }
      if reply.Success? {
        notices := notices + [Succeeded("Subscribers deleted successfully")];
        selected := [];
        Fetch(refetch);
        assert calls == sent + [FetchList];
      } else {
        notices := notices + [Failed(MessageOr(reply.message, "Failed to delete subscribers"))];
      }
      loading := false;
    }
  }
}
