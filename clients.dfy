/**
 * The Clients editor: a cached client list and a create/edit form whose
 * companies, e-mails and phones are repeatable string fields.
 */
module Clients {
  import opened Api
  import opened JsArrays

  datatype Company = Company(name: string)

  /** A client as the backend returns it: companies carry metadata (`{name}`). */
  datatype ClientRecord = ClientRecord(
    id: string, clientName: string, companies: seq<Company>, emails: seq<string>, phones: seq<string>)

  /** The three repeatable groups of the form. */
  datatype Group = Companies | Emails | Phones

  /** The form buffer: companies are flattened to their names for editing. */
  datatype ClientForm = ClientForm(
    clientName: string, companies: seq<string>, emails: seq<string>, phones: seq<string>)
  {
    function Get(g: Group): seq<string> {
      match g
      case Companies => companies
      case Emails => emails
      case Phones => phones
    }

    /** The form with group `g` replaced and everything else as it was. */
    function With(g: Group, items: seq<string>): (f: ClientForm)
      ensures f.Get(g) == items
      ensures forall h :: h != g ==> f.Get(h) == Get(h)
      ensures f.clientName == clientName
    {
      match g
      case Companies => this.(companies := items)
      case Emails => this.(emails := items)
      case Phones => this.(phones := items)
    }
  }

  /** What is sent to the backend on submit. */
  datatype ClientPayload = ClientPayload(
    clientName: string, companies: seq<Company>, emails: seq<string>, phones: seq<string>)

  /** The buffer of a new or closed form. */
  function EmptyForm(): (f: ClientForm)
    ensures f.clientName == ""
    ensures forall g :: f.Get(g) == [""]
  {
    ClientForm("", [""], [""], [""])
  }

  /** `names.map((c) => ({ name: c }))` */
  function Wrap(names: seq<string>): (r: seq<Company>)
    ensures |r| == |names|
  {
    if names == [] then [] else [Company(names[0])] + Wrap(names[1..])
  }

  /** `companies.map((c) => c.name)` */
  function Names(companies: seq<Company>): (r: seq<string>)
    ensures |r| == |companies|
  {
    if companies == [] then [] else [companies[0].name] + Names(companies[1..])
  }

  /** Wrapping is one-for-one and in order, blanks included. */
  lemma {:induction false} WrapAt(names: seq<string>)
    ensures forall i :: 0 <= i < |names| ==> Wrap(names)[i] == Company(names[i])
  {
    if names != [] {
      var rest := Wrap(names[1..]);
      WrapAt(names[1..]);
      assert Wrap(names) == [Company(names[0])] + rest;
      forall i | 1 <= i < |names| ensures Wrap(names)[i] == Company(names[i]) {
        assert Wrap(names)[i] == rest[i - 1];
        assert names[1..][i - 1] == names[i];
      }
    }
  }

  /** Flattening is one-for-one and in order. */
  lemma {:induction false} NamesAt(companies: seq<Company>)
    ensures forall i :: 0 <= i < |companies| ==> Names(companies)[i] == companies[i].name
  {
    if companies != [] {
      var rest := Names(companies[1..]);
      NamesAt(companies[1..]);
      assert Names(companies) == [companies[0].name] + rest;
      forall i | 1 <= i < |companies| ensures Names(companies)[i] == companies[i].name {
        assert Names(companies)[i] == rest[i - 1];
        assert companies[1..][i - 1] == companies[i];
      }
    }
  }

  /** Flattening then re-wrapping gives the backend's companies back. */
  lemma {:induction false} WrapNames(companies: seq<Company>)
    ensures Wrap(Names(companies)) == companies
  {
    if companies != [] {
      WrapNames(companies[1..]);
    }
  }

  /** Wrapping then flattening gives the edited names back. */
  lemma {:induction false} NamesWrap(names: seq<string>)
    ensures Names(Wrap(names)) == names
  {
    if names != [] {
      NamesWrap(names[1..]);
    }
  }

  /** `(x) => x.trim() !== ""` */
  predicate NonBlank(x: string) {
    Trim(x) != ""
  }

  /** The payload built by `handleSubmit`. */
  function BuildPayload(f: ClientForm): (p: ClientPayload)
    ensures p.clientName == f.clientName
    ensures |p.companies| == |f.companies|
    ensures forall i :: 0 <= i < |f.companies| ==> p.companies[i] == Company(f.companies[i])
  {
    WrapAt(f.companies);
    ClientPayload(f.clientName, Wrap(f.companies), Filter(NonBlank, f.emails), Filter(NonBlank, f.phones))
  }

  /** `trim() !== ""` means: has a character that is not whitespace. */
  lemma NonBlankIff()
    ensures forall x :: NonBlank(x) <==> !IsBlank(x)
  {
    forall x ensures NonBlank(x) <==> !IsBlank(x) {
      TrimEmptyIffBlank(x);
    }
  }

  /**
   * The blank filter keeps exactly the entries that have a non-whitespace
   * character, each as often as in the input, in their original order.
   */
  lemma KeepNonBlank(items: seq<string>)
    ensures forall x :: x in Filter(NonBlank, items) <==> x in items && !IsBlank(x)
    ensures forall x :: multiset(Filter(NonBlank, items))[x] == if IsBlank(x) then 0 else multiset(items)[x]
    ensures forall a, b :: items == a + b ==> Filter(NonBlank, items) == Filter(NonBlank, a) + Filter(NonBlank, b)
  {
    NonBlankIff();
    FilterMembers(NonBlank, items);
    FilterMultiset(NonBlank, items);
    forall a, b | items == a + b ensures Filter(NonBlank, items) == Filter(NonBlank, a) + Filter(NonBlank, b) {
      FilterAppend(NonBlank, a, b);
    }
  }

  /** The payload's e-mails and phones are the form's, blanks dropped. */
  lemma PayloadDropsBlanks(f: ClientForm)
    ensures forall x :: x in BuildPayload(f).emails <==> x in f.emails && !IsBlank(x)
    ensures forall x :: x in BuildPayload(f).phones <==> x in f.phones && !IsBlank(x)
    ensures forall x :: multiset(BuildPayload(f).emails)[x] == if IsBlank(x) then 0 else multiset(f.emails)[x]
    ensures forall x :: multiset(BuildPayload(f).phones)[x] == if IsBlank(x) then 0 else multiset(f.phones)[x]
  {
    KeepNonBlank(f.emails);
    KeepNonBlank(f.phones);
  }

  /** Filtering the sent e-mails and phones again drops nothing: no blank entry is left in them. */
  lemma PayloadFiltersSettle(f: ClientForm)
    ensures Filter(NonBlank, BuildPayload(f).emails) == BuildPayload(f).emails
    ensures Filter(NonBlank, BuildPayload(f).phones) == BuildPayload(f).phones
  {
    FilterIdempotent(NonBlank, f.emails);
    FilterIdempotent(NonBlank, f.phones);
  }

  /**
   * A new client with one company, a blank and a real e-mail and a blank
   * phone is sent with the company wrapped, one e-mail and no phone.
   */
  lemma OneCompanyOneEmail(name: string, company: string, email: string)
    requires !IsBlank(email)
    ensures BuildPayload(ClientForm(name, [company], ["", email], [""]))
         == ClientPayload(name, [Company(company)], [email], [])
  {
    assert NonBlank(email) by {
      TrimEmptyIffBlank(email);
    }
    BlankFirstDropped(email);
    assert Wrap([company]) == [Company(company)] by {
      assert [company][1..] == [];
    }
  }

  /** The filter of a blank entry followed by a real one. */
  lemma BlankFirstDropped(email: string)
    requires NonBlank(email)
    ensures Filter(NonBlank, [""]) == []
    ensures Filter(NonBlank, ["", email]) == [email]
  {
    EmptyIsBlank();
    assert Filter(NonBlank, [email]) == [email] by {
      assert [email][1..] == [];
    }
    assert ["", email][1..] == [email];
    assert [""][1..] == [];
  }

  lemma EmptyIsBlank()
    ensures !NonBlank("")
  {
    assert TrimStart("") == "";
  }

  /** The buffer `handleEdit` loads from a record. */
  function FormOf(c: ClientRecord): (f: ClientForm)
    ensures f.clientName == c.clientName && f.emails == c.emails && f.phones == c.phones
    ensures |f.companies| == |c.companies|
    ensures forall i :: 0 <= i < |c.companies| ==> f.companies[i] == c.companies[i].name
  {
    NamesAt(c.companies);
    ClientForm(c.clientName, Names(c.companies), c.emails, c.phones)
  }

  /**
   * An unedited client is sent back with the same name and companies, and
   * with the same e-mails and phones when none of them is blank.
   */
  lemma EditRoundTrip(c: ClientRecord)
    ensures BuildPayload(FormOf(c)).clientName == c.clientName
    ensures BuildPayload(FormOf(c)).companies == c.companies
    ensures (forall i :: 0 <= i < |c.emails| ==> !IsBlank(c.emails[i])) ==> BuildPayload(FormOf(c)).emails == c.emails
    ensures (forall i :: 0 <= i < |c.phones| ==> !IsBlank(c.phones[i])) ==> BuildPayload(FormOf(c)).phones == c.phones
  {
    WrapNames(c.companies);
    FilterKeepsAllIff(NonBlank, c.emails);
    FilterKeepsAllIff(NonBlank, c.phones);
    NonBlankIff();
  }

  /** The page state of the Clients editor. */
  class ClientsPage {
    var clients: seq<ClientRecord>
    var loading: bool
    var modalOpen: bool
    var editingId: Option<string>
    var form: ClientForm
    ghost var calls: seq<Call<ClientPayload>>
    ghost var notices: seq<Notice>

    constructor ()
      ensures clients == [] && !loading && !modalOpen
      ensures editingId == None && form == EmptyForm()
      ensures calls == [] && notices == []
    {
      clients, loading, modalOpen := [], false, false;
      editingId, form := None, EmptyForm();
      calls, notices := [], [];
    }

    /** Remove buttons are rendered for group `g` only while it has more than one entry. */
    predicate RemoveOffered(g: Group)
      reads this
    {
      |form.Get(g)| > 1
    }

    /** `fetchClients`: a successful reply replaces the list, any other leaves it. */
    method Fetch(reply: Reply<seq<ClientRecord>>)
      modifies this`clients, this`loading, this`calls, this`notices
      ensures calls == old(calls) + [FetchList]
      ensures clients == if reply.Success? then reply.data else old(clients)
      ensures notices == old(notices)
        + if reply.Failure? then [Failed(MessageOr(reply.message, "Failed to fetch clients"))] else []
      ensures loading == reply.Thrown?
    {
      loading := true;
      calls := calls + [FetchList];
      if reply.Thrown? {
        return;
      }
      if reply.Success? {
        clients := reply.data;
      } else {
        notices := notices + [Failed(MessageOr(reply.message, "Failed to fetch clients"))];
      }
      loading := false;
    }

    /** `handleChange`: the only plain input is `client_name`. */
    method HandleChange(value: string)
      modifies this`form
      ensures form == old(form).(clientName := value)
    {
      form := form.(clientName := value);
    }

    /** `handleArrayChange(index, field, value)`: sets one entry of one group. */
    method HandleArrayChange(index: nat, g: Group, value: string)
      requires index < |form.Get(g)|
      modifies this`form
      ensures |form.Get(g)| == |old(form.Get(g))| && form.Get(g)[index] == value
      ensures forall j :: 0 <= j < |form.Get(g)| && j != index ==> form.Get(g)[j] == old(form.Get(g))[j]
      ensures forall h :: h != g ==> form.Get(h) == old(form.Get(h))
      ensures form.clientName == old(form.clientName)
    {
      form := form.With(g, form.Get(g)[index := value]);
    }

    /** `addField(field)`: one more empty entry at the end of the group. */
    method AddField(g: Group)
      modifies this`form
      ensures form.Get(g) == old(form.Get(g)) + [""]
      ensures forall h :: h != g ==> form.Get(h) == old(form.Get(h))
      ensures form.clientName == old(form.clientName)
    {
      form := form.With(g, form.Get(g) + [""]);
    }

    /** `removeField(field, index)`: drops entry `index`, keeping the others in order. */
    method RemoveField(g: Group, index: int)
      modifies this`form
      ensures form.Get(g) == Without(old(form.Get(g)), index)
      ensures 0 <= index < |old(form.Get(g))| ==> form.Get(g) == old(form.Get(g))[..index] + old(form.Get(g))[index + 1..]
      ensures old(RemoveOffered(g)) && 0 <= index < |old(form.Get(g))| ==> |form.Get(g)| == |old(form.Get(g))| - 1 >= 1
      ensures forall h :: h != g ==> form.Get(h) == old(form.Get(h))
      ensures form.clientName == old(form.clientName)
    {
      WithoutIsSplice(form.Get(g), index);
      form := form.With(g, Without(form.Get(g), index));
    }

    /**
     * `handleSubmit`: sends the built payload to edit when the edit id is set,
     * otherwise to add; success closes and resets the form and refetches,
     * failure keeps the form and the edit id.
     */
    method Submit(reply: Reply<()>, refetch: Reply<seq<ClientRecord>>)
      modifies this
      ensures reply.Success? ==>
        && calls == old(calls) + [Save(old(editingId), BuildPayload(old(form))), FetchList]
        && form == EmptyForm() && editingId == None && !modalOpen && !loading
        && clients == (if refetch.Success? then refetch.data else old(clients))
        && notices == old(notices)
             + [Succeeded(if EditTarget(old(editingId)).Some? then "Client updated successfully!" else "Client added successfully!")]
             + (if refetch.Failure? then [Failed(MessageOr(refetch.message, "Failed to fetch clients"))] else [])
      ensures !reply.Success? ==>
        && calls == old(calls) + [Save(old(editingId), BuildPayload(old(form)))]
        && form == old(form) && editingId == old(editingId) && modalOpen == old(modalOpen)
        && clients == old(clients) && loading == reply.Thrown?
        && notices == old(notices) + if reply.Failure? then [Failed(MessageOr(reply.message, "Operation failed"))] else []
    {
      var payload := BuildPayload(form);
      ghost var sent := calls + [Save(editingId, payload)];
      loading := true;
      calls := sent;
      if reply.Thrown? {
        return;
      }
      if reply.Success? {
        var text := if EditTarget(editingId).Some? then "Client updated successfully!" else "Client added successfully!";
        notices := notices + [Succeeded(text)];
        CloseModal();
        Fetch(refetch);
        assert calls == sent + [FetchList];
      } else {
        notices := notices + [Failed(MessageOr(reply.message, "Operation failed"))];
      }
      loading := false;
    }

    /** `handleDelete(id)`: asks first; a confirmed, successful delete refetches. */
    method Delete(id: string, confirmed: bool, reply: Reply<()>, refetch: Reply<seq<ClientRecord>>)
      modifies this`clients, this`loading, this`calls, this`notices
      ensures !confirmed ==>
        calls == old(calls) + [Confirm("Are you sure you want to delete this client?")]
        && clients == old(clients) && loading == old(loading) && notices == old(notices)
      ensures confirmed ==>
        && calls == old(calls) + [Confirm("Are you sure you want to delete this client?"), Api.Delete(id)]
             + (if reply.Success? then [FetchList] else [])
        && clients == (if reply.Success? && refetch.Success? then refetch.data else old(clients))
        && notices == old(notices)
             + (if reply.Success? then [Succeeded("Client deleted successfully")] else [])
             + (if reply.Success? && refetch.Failure? then [Failed(MessageOr(refetch.message, "Failed to fetch clients"))] else [])
             + (if reply.Failure? then [Failed(MessageOr(reply.message, "Failed to delete client"))] else [])
        && loading == reply.Thrown?
    {
      calls := calls + [Confirm("Are you sure you want to delete this client?")];
      if !confirmed {
        return;
      }
      loading := true;
      calls := calls + [Api.Delete(id)];
      if reply.Thrown? {
        return;
      }
      if reply.Success? {
        notices := notices + [Succeeded("Client deleted successfully")];
        Fetch(refetch);
      } else {
        notices := notices + [Failed(MessageOr(reply.message, "Failed to delete client"))];
      }
      loading := false;
    }

    /** `handleEdit(client)`: loads the record, companies flattened to names. */
    method HandleEdit(client: ClientRecord)
      modifies this`form, this`editingId, this`modalOpen
      ensures form == FormOf(client) && Wrap(form.companies) == client.companies
      ensures editingId == Some(client.id) && modalOpen
    {
      WrapNames(client.companies);
      form := FormOf(client);
      editingId := Some(client.id);
      modalOpen := true;
    }

    /** `handleAddNew`: an empty create form. */
    method HandleAddNew()
      modifies this`form, this`editingId, this`modalOpen
      ensures form == EmptyForm() && editingId == None && modalOpen
    {
      editingId := None;
      form := EmptyForm();
      modalOpen := true;
    }

    /** `closeModal`: closes the form and discards the buffer and the edit id. */
    method CloseModal()
      modifies this`form, this`editingId, this`modalOpen
      ensures form == EmptyForm() && editingId == None && !modalOpen
    {
      modalOpen := false;
      editingId := None;
      form := EmptyForm();
    }
  }
}
