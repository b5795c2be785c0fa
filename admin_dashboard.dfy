/** The admin dashboard: the invitations, projects and users lists and how the
    handlers rewrite them, the invitation selection, the case-insensitive search
    boxes, the hours filter with its total, and the dd-mm-yyyy date display. */
module AdminDashboard {

  import opened Common
  import opened Strings
  import opened Lists
  import opened Calendar
  import opened Passwords

  datatype Invitation = Invitation(id: string, email: string, name: Option<string>)

  datatype Project = Project(id: string, name: string, company: string, location: string, locationRadius: Option<int>)

  datatype User = User(id: string, email: string, firstName: string, lastName: string, role: string)

  /** A clock entry; `date` is the `YYYY-MM-DD` date of its clock-in time. */
  datatype Entry = Entry(userId: string, projectId: string, date: string, totalHours: Option<real>)

  /** The hours filter; an empty string means "no filter". */
  datatype EntryFilter = EntryFilter(user: string, project: string, start: string, end: string)

  /** The invitation being renamed: `{id, email, name: invitation.name || ""}`. */
  datatype InvitationEdit = InvitationEdit(id: string, email: string, name: string)

  datatype InviteForm = InviteForm(email: string, name: string)

  /** The project form; only the radius has a non-empty default (100). The other
      fields are sent as typed and are kept opaque here. */
  datatype ProjectForm = ProjectForm(fields: seq<string>, locationRadius: int)

  datatype PasswordForm = PasswordForm(oldPassword: string, newPassword: string, confirmPassword: string)

  /** The calls this screen makes to the backend. */
  datatype Request =
    | DeleteProject(projectId: string)
    | CreateInvitation(email: string, name: string)
    | CreateProject(form: ProjectForm)
    | UpdateProject(projectId: string, project: Project)
    | UpdateUser(userId: string, user: User)
    | DeleteUser(userId: string)
    | FetchAll
    | RenameInvitation(invitationId: string, name: string)
    | DeleteInvitation(invitationId: string)
    | BulkDeleteInvitations(invitationIds: seq<string>)
    | ChangePassword(oldPassword: string, newPassword: string)

  const EmptyInviteForm := InviteForm("", "")
  const EmptyProjectForm := ProjectForm([], 100)
  const EmptyPasswordForm := PasswordForm("", "", "")

  // ---------------------------------------------------------------------------
  // formatDate

  /** `formatDate`: "-" for an empty string; the day, month and year of a
      `YYYY-MM-DD` date as dd-mm-yyyy; what an invalid date prints otherwise. */
  function FormatDate(s: string): (r: string)
    ensures s == "" <==> r == "-"
  {
    if s == "" then "-"
    else match ParseIsoDate(s)
      case None => "NaN-NaN-NaN"
      case Some(d) => DayMonthYear(d)
  }

  function DayMonthYear(d: Date): (r: string)
    ensures |r| >= 7
  {
    Pad2(d.day) + "-" + Pad2(d.month) + "-" + (if d.year >= 0 then NatToString(d.year) else "-" + NatToString(-d.year))
  }

  /** Reads dd-mm-yyyy back: two-digit day and month, a non-negative year. */
  function ParseDayMonthYear(s: string): (r: Option<Date>)
  {
    ParseDmyFields(Split(s, '-'))
  }

  function ParseDmyFields(parts: seq<string>): (r: Option<Date>)
  {
    if |parts| == 3 && |parts[0]| == 2 && |parts[1]| == 2 && |parts[2]| >= 1
       && AllDigits(parts[0]) && AllDigits(parts[1]) && AllDigits(parts[2])
    then Some(Date(DecimalValue(parts[2]), DecimalValue(parts[1]), DecimalValue(parts[0])))
    else None
  }

  /** The displayed dd-mm-yyyy names the same date as the `YYYY-MM-DD` string it
      was made from. */
  lemma FormatDateRoundTrip(d: Date)
    requires ValidDate(d) && 0 <= d.year <= 9999
    ensures ParseDayMonthYear(FormatDate(IsoDate(d))) == Some(d)
  {
    FormatIsoDate(d);
    DayMonthYearParses(d);
  }

  lemma FormatIsoDate(d: Date)
    requires ValidDate(d) && 0 <= d.year <= 9999
    ensures FormatDate(IsoDate(d)) == DayMonthYear(d)
  {
    IsoDateRoundTrip(d);
    IsoDatePieces(d);
  }

  lemma DayMonthYearParses(d: Date)
    requires ValidDate(d) && 0 <= d.year
    ensures ParseDayMonthYear(DayMonthYear(d)) == Some(d)
  {
    var pd, pm, py := Pad2(d.day), Pad2(d.month), NatToString(d.year);
    NoDash(pd);
    NoDash(pm);
    NoDash(py);
    DmyJoined(pd, pm, py);
    DmyFields(d, pd, pm, py);
  }

  lemma DmyJoined(pd: string, pm: string, py: string)
    requires '-' !in pd && '-' !in pm && '-' !in py
    ensures ParseDayMonthYear(pd + "-" + pm + "-" + py) == ParseDmyFields([pd, pm, py])
  {
    SplitThree(pd, pm, py, '-');
    assert pd + "-" + pm + "-" + py == pd + ['-'] + pm + ['-'] + py;
  }

  lemma DmyFields(d: Date, pd: string, pm: string, py: string)
    requires ValidDate(d) && 0 <= d.year
    requires pd == Pad2(d.day) && pm == Pad2(d.month) && py == NatToString(d.year)
    ensures ParseDmyFields([pd, pm, py]) == Some(d)
  {
  }

  lemma NoDash(digits: string)
    requires AllDigits(digits)
    ensures '-' !in digits
  {
  }

  // ---------------------------------------------------------------------------
  // getFilteredEntries and getTotalHours

  /** The test `getFilteredEntries` applies to one entry: each non-empty filter
      must match, and the dates compare as strings. */
  predicate Keep(f: EntryFilter, e: Entry)
  {
    (f.user == "" || e.userId == f.user)
    && (f.project == "" || e.projectId == f.project)
    && (f.start == "" || !Less(e.date, f.start))
    && (f.end == "" || !Less(f.end, e.date))
  }

  function FilteredEntries(entries: seq<Entry>, f: EntryFilter): (r: seq<Entry>)
    ensures forall e :: e in r <==> e in entries && Keep(f, e)
  {
    Filter(entries, (e: Entry) => Keep(f, e))
  }

  /** With every filter empty, every entry is shown. */
  lemma NoFilterKeepsAll(entries: seq<Entry>)
    ensures FilteredEntries(entries, EntryFilter("", "", "", "")) == entries
  {
    FilterAll(entries, (e: Entry) => Keep(EntryFilter("", "", "", ""), e));
  }

  /** The select value "all" is an ordinary non-empty filter: unless some entry
      has that id, it hides every entry. */
  lemma AllMatchesNothing(entries: seq<Entry>, f: EntryFilter)
    requires (f.user == "all" && forall e | e in entries :: e.userId != "all")
          || (f.project == "all" && forall e | e in entries :: e.projectId != "all")
    ensures FilteredEntries(entries, f) == []
  {
    FilterNone(entries, (e: Entry) => Keep(f, e));
  }

  /** For entries and bounds that are real `YYYY-MM-DD` dates, comparing the
      strings is comparing the dates: an entry passes the date filters exactly
      when its date lies between the bounds, both included. */
  lemma DateFilterIsCalendarRange(f: EntryFilter, e: Entry, d: Date, start: Date, end: Date)
    requires ValidDate(d) && ValidDate(start) && ValidDate(end)
    requires 0 <= d.year <= 9999 && 0 <= start.year <= 9999 && 0 <= end.year <= 9999
    requires e.date == IsoDate(d) && f.start == IsoDate(start) && f.end == IsoDate(end)
    requires f.user == "" && f.project == ""
    ensures Keep(f, e) <==> !DateLess(d, start) && !DateLess(end, d)
  {
    IsoDateOrder(d, start);
    IsoDateOrder(end, d);
    IsoDatePieces(start);
    IsoDatePieces(end);
  }

  /** `entry.total_hours || 0`. */
  function HoursOrZero(e: Entry): real
  {
    if e.totalHours.Some? then e.totalHours.value else 0.0
  }

  /** `getTotalHours`: the hours of the filtered entries. */
  function TotalHours(entries: seq<Entry>, f: EntryFilter): real
  {
    Sum(FilteredEntries(entries, f), HoursOrZero)
  }

  /** The total is a sum over all entries of the hours of those kept and zero
      for the others. */
  lemma TotalHoursOverKept(entries: seq<Entry>, f: EntryFilter)
    ensures TotalHours(entries, f) == Sum(entries, Mask((e: Entry) => Keep(f, e), HoursOrZero))
  {
    SumFilter(entries, (e: Entry) => Keep(f, e), HoursOrZero);
  }

  /** One more entry adds its hours to the total exactly when it is kept. */
  lemma TotalHoursAppend(entries: seq<Entry>, f: EntryFilter, e: Entry)
    ensures TotalHours(entries + [e], f) == TotalHours(entries, f) + (if Keep(f, e) then HoursOrZero(e) else 0.0)
  {
    var keep := (x: Entry) => Keep(f, x);
    FilterAppend(entries, [e], keep);
    SumAppend(Filter(entries, keep), Filter([e], keep), HoursOrZero);
    assert [e][1..] == [];
    if keep(e) {
      assert Filter([e], keep) == [e];
      assert [e][..0] == [];
    } else {
      assert Filter([e], keep) == [];
    }
  }

  // ---------------------------------------------------------------------------
  // Search boxes

  /** Some field contains the query, both lower-cased. */
  predicate Matches(fields: seq<string>, query: string)
  {
    exists i | 0 <= i < |fields| :: Contains(Lower(fields[i]), Lower(query))
  }

  /** A search box: the list itself for an empty query, otherwise the items with
      a field containing the query, ignoring case, in their order. */
  function Search<T(!new)>(xs: seq<T>, query: string, fieldsOf: T -> seq<string>): (r: seq<T>)
    ensures query == "" ==> r == xs
    ensures query != "" ==> forall x :: x in r <==> x in xs && Matches(fieldsOf(x), query)
  {
    if query == "" then xs else Filter(xs, (x: T) => Matches(fieldsOf(x), query))
  }

  /** Searching is blind to the case of the query. */
  lemma SearchIgnoresQueryCase<T(!new)>(xs: seq<T>, query: string, fieldsOf: T -> seq<string>)
    ensures Search(xs, query, fieldsOf) == Search(xs, Lower(query), fieldsOf)
  {
    LowerIdempotent(query);
    forall x | x in xs
      ensures Matches(fieldsOf(x), query) == Matches(fieldsOf(x), Lower(query))
    {
    }
    FilterSame(xs, (x: T) => Matches(fieldsOf(x), query), (x: T) => Matches(fieldsOf(x), Lower(query)));
  }

  /** Typing more narrows the results: the items found for a query that
      contains another are found for that other one too, in the same order. */
  lemma SearchNarrows<T(!new)>(xs: seq<T>, longer: string, shorter: string, fieldsOf: T -> seq<string>)
    requires longer != "" && Contains(Lower(longer), Lower(shorter))
    ensures Search(xs, longer, fieldsOf)
         == Filter(Search(xs, shorter, fieldsOf), (x: T) => Matches(fieldsOf(x), longer))
  {
    var p := (x: T) => Matches(fieldsOf(x), longer);
    var q := (x: T) => Matches(fieldsOf(x), shorter);
    if shorter != "" {
      forall x | x in xs && p(x)
        ensures q(x)
      {
        var i :| 0 <= i < |fieldsOf(x)| && Contains(Lower(fieldsOf(x)[i]), Lower(longer));
        ContainsTransitive(Lower(fieldsOf(x)[i]), Lower(longer), Lower(shorter));
      }
      FilterNarrows(xs, p, q);
    }
  }

  function ProjectFields(p: Project): seq<string>
  {
    [p.name, p.company, p.location]
  }

  /** An invitation's name is searched only when it is present. */
  function InvitationFields(inv: Invitation): seq<string>
  {
    [inv.email] + (if Truthy(inv.name) then [inv.name.value] else [])
  }

  function UserFields(u: User): seq<string>
  {
    [u.email, u.firstName, u.lastName, u.firstName + " " + u.lastName]
  }

  /** `getFilteredProjects`: name, company or location. */
  function FilteredProjects(projects: seq<Project>, query: string): (r: seq<Project>)
    ensures query == "" ==> r == projects
    ensures query != "" ==> forall p :: p in r <==> (p in projects
              && (Contains(Lower(p.name), Lower(query)) || Contains(Lower(p.company), Lower(query))
                  || Contains(Lower(p.location), Lower(query))))
  {
    var r := Search(projects, query, ProjectFields);
    assert forall p :: Matches(ProjectFields(p), query) <==>
      Contains(Lower(p.name), Lower(query)) || Contains(Lower(p.company), Lower(query))
      || Contains(Lower(p.location), Lower(query)) by {
      forall p ensures Matches(ProjectFields(p), query) <==>
        Contains(Lower(p.name), Lower(query)) || Contains(Lower(p.company), Lower(query))
        || Contains(Lower(p.location), Lower(query)) {
        var fs := ProjectFields(p);
        assert fs[0] == p.name && fs[1] == p.company && fs[2] == p.location;
      }
    }
    r
  }

  /** `getFilteredUsers`: e-mail, first name, last name or "first last". */
  function FilteredUsers(users: seq<User>, query: string): (r: seq<User>)
    ensures query == "" ==> r == users
    ensures query != "" ==> forall u :: u in r <==> (u in users
              && (Contains(Lower(u.email), Lower(query)) || Contains(Lower(u.firstName), Lower(query))
                  || Contains(Lower(u.lastName), Lower(query))
                  || Contains(Lower(u.firstName + " " + u.lastName), Lower(query))))
  {
    var r := Search(users, query, UserFields);
    assert forall u :: Matches(UserFields(u), query) <==>
      Contains(Lower(u.email), Lower(query)) || Contains(Lower(u.firstName), Lower(query))
      || Contains(Lower(u.lastName), Lower(query))
      || Contains(Lower(u.firstName + " " + u.lastName), Lower(query)) by {
      forall u ensures Matches(UserFields(u), query) <==>
        Contains(Lower(u.email), Lower(query)) || Contains(Lower(u.firstName), Lower(query))
        || Contains(Lower(u.lastName), Lower(query))
        || Contains(Lower(u.firstName + " " + u.lastName), Lower(query)) {
        var fs := UserFields(u);
        assert fs[0] == u.email && fs[1] == u.firstName && fs[2] == u.lastName;
        assert fs[3] == u.firstName + " " + u.lastName;
      }
    }
    r
  }

  /** `getFilteredInvitations`: e-mail, or the name when it is present. */
  function FilteredInvitations(invitations: seq<Invitation>, query: string): (r: seq<Invitation>)
    ensures query == "" ==> r == invitations
    ensures query != "" ==> forall inv :: inv in r <==> (inv in invitations
              && (Contains(Lower(inv.email), Lower(query))
                  || (Truthy(inv.name) && Contains(Lower(inv.name.value), Lower(query)))))
  {
    var r := Search(invitations, query, InvitationFields);
    assert forall inv :: Matches(InvitationFields(inv), query) <==>
      Contains(Lower(inv.email), Lower(query))
      || (Truthy(inv.name) && Contains(Lower(inv.name.value), Lower(query))) by {
      forall inv ensures Matches(InvitationFields(inv), query) <==>
        Contains(Lower(inv.email), Lower(query))
        || (Truthy(inv.name) && Contains(Lower(inv.name.value), Lower(query))) {
        var fs := InvitationFields(inv);
        assert fs[0] == inv.email;
        if Truthy(inv.name) { assert |fs| == 2 && fs[1] == inv.name.value; }
        else { assert |fs| == 1; }
      }
    }
    r
  }

  // ---------------------------------------------------------------------------
  // List rewrites

  function InvitationIds(invitations: seq<Invitation>): (r: seq<string>)
    ensures |r| == |invitations|
    ensures forall i | 0 <= i < |r| :: r[i] == invitations[i].id
  {
    Map(invitations, (inv: Invitation) => inv.id)
  }

  /** `xs.filter(x => x.id !== id)`: everything except the items with that id. */
  function WithoutId<T(!new)>(xs: seq<T>, idOf: T -> string, id: string): (r: seq<T>)
    ensures forall x :: x in r <==> x in xs && idOf(x) != id
    ensures |r| <= |xs|
  {
    Filter(xs, (x: T) => idOf(x) != id)
  }

  /** Removing an id that is not there changes nothing. */
  lemma WithoutAbsentId<T(!new)>(xs: seq<T>, idOf: T -> string, id: string)
    requires forall x | x in xs :: idOf(x) != id
    ensures WithoutId(xs, idOf, id) == xs
  {
    FilterAll(xs, (x: T) => idOf(x) != id);
  }

  /** Removing an id held by exactly one item removes exactly that item. */
  lemma WithoutUniqueId<T(!new)>(xs: seq<T>, idOf: T -> string, id: string, k: nat)
    requires k < |xs| && idOf(xs[k]) == id
    requires forall i | 0 <= i < |xs| && i != k :: idOf(xs[i]) != id
    ensures WithoutId(xs, idOf, id) == xs[..k] + xs[k + 1..]
  {
    var p := (x: T) => idOf(x) != id;
    var before, after := xs[..k], xs[k + 1..];
    assert xs == before + [xs[k]] + after;
    forall x | x in before ensures p(x) {
      var i :| 0 <= i < |before| && before[i] == x;
      assert xs[i] == x;
    }
    forall x | x in after ensures p(x) {
      var i :| 0 <= i < |after| && after[i] == x;
      assert xs[k + 1 + i] == x;
    }
    FilterDropsOne(before, xs[k], after, p);
  }

  /** `xs.map(x => x.id === id ? y : x)`. */
  function ReplaceId<T>(xs: seq<T>, idOf: T -> string, id: string, y: T): (r: seq<T>)
    ensures |r| == |xs|
    ensures forall i | 0 <= i < |xs| :: r[i] == if idOf(xs[i]) == id then y else xs[i]
  {
    ReplaceWhere(xs, (x: T) => idOf(x) == id, (_: T) => y)
  }

  /** Replacing an id that is not there changes nothing; replacing one held by
      exactly one item changes that item alone. */
  lemma ReplaceIdTouchesOnlyThatId<T>(xs: seq<T>, idOf: T -> string, id: string, y: T)
    ensures (forall x | x in xs :: idOf(x) != id) ==> ReplaceId(xs, idOf, id, y) == xs
    ensures forall k | 0 <= k < |xs| && idOf(xs[k]) == id && (forall i | 0 <= i < |xs| && i != k :: idOf(xs[i]) != id)
              :: ReplaceId(xs, idOf, id, y) == xs[k := y]
  {
  }

  /** `invitations.filter(inv => !itemsToDelete.includes(inv.id))`. */
  function WithoutIds(invitations: seq<Invitation>, ids: seq<string>): (r: seq<Invitation>)
    ensures forall inv :: inv in r <==> inv in invitations && inv.id !in ids
  {
    Filter(invitations, (inv: Invitation) => inv.id !in ids)
  }

  /** Renaming: `{...inv, name}` for the invitation with that id. */
  function Renamed(invitations: seq<Invitation>, id: string, name: string): (r: seq<Invitation>)
    ensures |r| == |invitations|
    ensures forall i | 0 <= i < |r| :: r[i].id == invitations[i].id && r[i].email == invitations[i].email
    ensures forall i | 0 <= i < |r| :: r[i].name == if invitations[i].id == id then Some(name) else invitations[i].name
  {
    ReplaceWhere(invitations, (inv: Invitation) => inv.id == id, (inv: Invitation) => inv.(name := Some(name)))
  }

  // ---------------------------------------------------------------------------
  // Selection

  /** `toggleInvitationSelection`: drop the id if selected, append it otherwise. */
  function Toggle(selected: seq<string>, id: string): (r: seq<string>)
  {
    if id in selected then Filter(selected, (x: string) => x != id) else selected + [id]
  }

  /** Toggling flips the membership of that id and of no other. */
  lemma ToggleFlips(selected: seq<string>, id: string)
    ensures id in Toggle(selected, id) <==> id !in selected
    ensures forall x | x != id :: x in Toggle(selected, id) <==> x in selected
  {
  }

  /** Toggling twice restores membership; an id that was not selected is
      appended and then removed, which restores the list exactly. */
  lemma ToggleTwice(selected: seq<string>, id: string)
    ensures forall x :: x in Toggle(Toggle(selected, id), id) <==> x in selected
    ensures id !in selected ==> Toggle(Toggle(selected, id), id) == selected
  {
    ToggleFlips(selected, id);
    ToggleFlips(Toggle(selected, id), id);
    if id !in selected {
      var p := (x: string) => x != id;
      FilterAppend(selected, [id], p);
      FilterAll(selected, p);
      assert [id][1..] == [];
      assert Filter([id], p) == [];
    }
  }

  /** A selection without duplicates stays without duplicates. */
  lemma ToggleNoDuplicates(selected: seq<string>, id: string)
    requires NoDuplicates(selected)
    ensures NoDuplicates(Toggle(selected, id))
  {
    if id in selected {
      FilterNoDuplicates(selected, (x: string) => x != id);
    }
  }

  /** `toggleSelectAll`: clear when as many ids are selected as invitations are
      shown, otherwise select the shown ones, in order. */
  function SelectAll(selected: seq<string>, shown: seq<Invitation>): (r: seq<string>)
    ensures |selected| == |shown| ==> r == []
    ensures |selected| != |shown| ==> |r| == |shown| && forall i | 0 <= i < |shown| :: r[i] == shown[i].id
  {
    if |selected| == |shown| then [] else InvitationIds(shown)
  }

  /** The header checkbox: ticked when something is shown and the selection has
      as many ids as are shown. */
  predicate AllTicked(selected: seq<string>, shown: seq<Invitation>)
  {
    |shown| > 0 && |selected| == |shown|
  }

  /** Clicking the header checkbox flips it whenever something is shown. */
  lemma SelectAllFlipsCheckbox(selected: seq<string>, shown: seq<Invitation>)
    ensures AllTicked(SelectAll(selected, shown), shown) <==> |shown| > 0 && !AllTicked(selected, shown)
  {
  }

  /** The comparison is by length only: a selection of the right size made of
      other ids is cleared as if everything were selected. */
  lemma SelectAllComparesLengths(selected: seq<string>, shown: seq<Invitation>)
    ensures |selected| == |shown| ==> SelectAll(selected, shown) == []
    ensures |selected| != |shown| ==> SelectAll(selected, shown) == InvitationIds(shown)
    ensures SelectAll(selected, shown) == [] <==> (|selected| == |shown| || shown == [])
  {
  }

  /** The success message of `confirmDelete`. */
  function DeletedText(count: nat): string
  {
    if count == 1 then "Uitnodiging verwijderd!" else NatToString(count) + " uitnodigingen verwijderd!"
  }

  /** The request `confirmDelete` sends: one DELETE for one id, the bulk call
      otherwise. */
  function DeleteRequest(items: seq<string>): (r: Request)
    ensures |items| == 1 <==> r.DeleteInvitation?
    ensures r.DeleteInvitation? ==> r.invitationId == items[0]
    ensures r.BulkDeleteInvitations? ==> r.invitationIds == items
    ensures |items| != 1 ==> r == BulkDeleteInvitations(items)
  {
    if |items| == 1 then DeleteInvitation(items[0]) else BulkDeleteInvitations(items)
  }

  // ---------------------------------------------------------------------------
  // The dashboard state

  class Dashboard {
    var invitations: seq<Invitation>
    var projects: seq<Project>
    var users: seq<User>
    var entries: seq<Entry>
    var loading: bool
    var inviteDialog: bool
    var inviteForm: InviteForm
    var projectDialog: bool
    var projectForm: ProjectForm
    var editProjectDialog: bool
    var editingProject: Option<Project>
    var editUserDialog: bool
    var editingUser: Option<User>
    var editingInvitation: Option<InvitationEdit>
    var passwordDialog: bool
    var passwordForm: PasswordForm
    var entryFilter: EntryFilter
    var invitationSearch: string
    var selected: seq<string>
    var deleteDialog: bool
    var itemsToDelete: seq<string>
    /** The toasts shown so far, oldest first. */
    var notices: seq<Notice>
    /** The backend calls made so far, oldest first. */
    var requests: seq<Request>

    constructor ()
      ensures invitations == [] && projects == [] && users == [] && entries == []
      ensures !loading && !inviteDialog && inviteForm == EmptyInviteForm
      ensures !projectDialog && projectForm == EmptyProjectForm
      ensures !editProjectDialog && editingProject == None && !editUserDialog && editingUser == None
      ensures editingInvitation == None && !passwordDialog && passwordForm == EmptyPasswordForm
      ensures entryFilter == EntryFilter("", "", "", "") && invitationSearch == ""
      ensures selected == [] && !deleteDialog && itemsToDelete == []
      ensures notices == [] && requests == []
    {
      invitations, projects, users, entries := [], [], [], [];
      loading, inviteDialog, inviteForm := false, false, EmptyInviteForm;
      projectDialog, projectForm := false, EmptyProjectForm;
      editProjectDialog, editingProject, editUserDialog, editingUser := false, None, false, None;
      editingInvitation, passwordDialog, passwordForm := None, false, EmptyPasswordForm;
      entryFilter, invitationSearch := EntryFilter("", "", "", ""), "";
      selected, deleteDialog, itemsToDelete := [], false, [];
      notices, requests := [], [];
    }

    /** `handleDeleteProject`; `confirmed` is the answer to `window.confirm`. */
    method HandleDeleteProject(confirmed: bool, id: string, reply: Reply<()>)
      modifies this`loading, this`requests, this`notices, this`projects
      ensures !confirmed ==> (loading == old(loading) && requests == old(requests)
                && notices == old(notices) && projects == old(projects))
      ensures confirmed ==> !loading && requests == old(requests) + [DeleteProject(id)]
      ensures confirmed && reply.Ok? ==>
                projects == WithoutId(old(projects), (p: Project) => p.id, id)
                && notices == old(notices) + [Success("Project verwijderd!")]
      ensures confirmed && reply.Failed? ==>
                projects == old(projects)
                && notices == old(notices) + [Error(DetailOr(reply.detail, "Kon project niet verwijderen"))]
    {
      if !confirmed {
        return;
      }
      loading := true;
      requests := requests + [DeleteProject(id)];
      if reply.Ok? {
        notices := notices + [Success("Project verwijderd!")];
        projects := WithoutId(projects, (p: Project) => p.id, id);
      } else {
        notices := notices + [Error(DetailOr(reply.detail, "Kon project niet verwijderen"))];
      }
      loading := false;
    }

    /** `handleInvite`: the created invitation goes first. */
    method HandleInvite(reply: Reply<Invitation>)
      modifies this`loading, this`requests, this`notices, this`invitations
      modifies this`inviteForm, this`inviteDialog
      ensures !loading && requests == old(requests) + [CreateInvitation(old(inviteForm).email, old(inviteForm).name)]
      ensures reply.Ok? ==>
                invitations == [reply.data] + old(invitations)
                && inviteForm == EmptyInviteForm && !inviteDialog
                && notices == old(notices) + [Success("Uitnodiging verstuurd!")]
      ensures reply.Failed? ==>
                invitations == old(invitations) && inviteForm == old(inviteForm)
                && inviteDialog == old(inviteDialog)
                && notices == old(notices) + [Error(DetailOr(reply.detail, "Kon uitnodiging niet versturen"))]
    {
      loading := true;
      requests := requests + [CreateInvitation(inviteForm.email, inviteForm.name)];
      if reply.Ok? {
        notices := notices + [Success("Uitnodiging verstuurd!")];
        invitations := [reply.data] + invitations;
        inviteForm := EmptyInviteForm;
        inviteDialog := false;
      } else {
        notices := notices + [Error(DetailOr(reply.detail, "Kon uitnodiging niet versturen"))];
      }
      loading := false;
    }

    /** `handleCreateProject`: the created project goes first; a failure shows a
        fixed message whatever the server said. */
    method HandleCreateProject(reply: Reply<Project>)
      modifies this`loading, this`requests, this`notices, this`projects
      modifies this`projectForm, this`projectDialog
      ensures !loading && requests == old(requests) + [CreateProject(old(projectForm))]
      ensures reply.Ok? ==>
                projects == [reply.data] + old(projects)
                && projectForm == EmptyProjectForm && !projectDialog
                && notices == old(notices) + [Success("Project aangemaakt!")]
      ensures reply.Failed? ==>
                projects == old(projects) && projectForm == old(projectForm)
                && projectDialog == old(projectDialog)
                && notices == old(notices) + [Error("Kon project niet aanmaken")]
    {
      loading := true;
      requests := requests + [CreateProject(projectForm)];
      if reply.Ok? {
        notices := notices + [Success("Project aangemaakt!")];
        projects := [reply.data] + projects;
        projectForm := EmptyProjectForm;
        projectDialog := false;
      } else {
        notices := notices + [Error("Kon project niet aanmaken")];
      }
      loading := false;
    }

    /** `handleEditProject`: a missing or zero radius is shown as 100. */
    method HandleEditProject(p: Project)
      modifies this`editingProject, this`editProjectDialog
      ensures editProjectDialog
      ensures editingProject == Some(p.(locationRadius :=
                if p.locationRadius.Some? && p.locationRadius.value != 0 then p.locationRadius else Some(100)))
    {
      var radius := if p.locationRadius.Some? && p.locationRadius.value != 0 then p.locationRadius else Some(100);
      editingProject := Some(p.(locationRadius := radius));
      editProjectDialog := true;
    }

    /** `handleUpdateProject`: the server's project replaces the one with the
        edited id. Without a project being edited the request cannot be built
        and the failure message is shown. */
    method HandleUpdateProject(reply: Reply<Project>)
      modifies this`loading, this`requests, this`notices, this`projects
      modifies this`editProjectDialog, this`editingProject
      ensures !loading
      ensures old(editingProject).None? ==>
                requests == old(requests) && projects == old(projects)
                && notices == old(notices) + [Error("Kon project niet bijwerken")]
                && editProjectDialog == old(editProjectDialog) && editingProject == None
      ensures old(editingProject).Some? ==>
                requests == old(requests) + [UpdateProject(old(editingProject).value.id, old(editingProject).value)]
      ensures old(editingProject).Some? && reply.Ok? ==>
                projects == ReplaceId(old(projects), (p: Project) => p.id, old(editingProject).value.id, reply.data)
                && !editProjectDialog && editingProject == None
                && notices == old(notices) + [Success("Project bijgewerkt!")]
      ensures old(editingProject).Some? && reply.Failed? ==>
                projects == old(projects) && editProjectDialog == old(editProjectDialog)
                && editingProject == old(editingProject)
                && notices == old(notices) + [Error("Kon project niet bijwerken")]
    {
      loading := true;
      if editingProject.None? {
        notices := notices + [Error("Kon project niet bijwerken")];
      } else {
        var edited := editingProject.value;
        requests := requests + [UpdateProject(edited.id, edited)];
        if reply.Ok? {
          notices := notices + [Success("Project bijgewerkt!")];
          projects := ReplaceId(projects, (p: Project) => p.id, edited.id, reply.data);
          editProjectDialog := false;
          editingProject := None;
        } else {
          notices := notices + [Error("Kon project niet bijwerken")];
        }
      }
      loading := false;
    }

    method HandleEditUser(u: User)
      modifies this`editingUser, this`editUserDialog
      ensures editingUser == Some(u) && editUserDialog
    {
      editingUser := Some(u);
      editUserDialog := true;
    }

    /** `handleUpdateUser`: the server's user replaces the one with the edited id. */
    method HandleUpdateUser(reply: Reply<User>)
      modifies this`loading, this`requests, this`notices, this`users
      modifies this`editUserDialog, this`editingUser
      ensures !loading
      ensures old(editingUser).None? ==>
                requests == old(requests) && users == old(users)
                && notices == old(notices) + [Error("Kon medewerker niet bijwerken")]
                && editUserDialog == old(editUserDialog) && editingUser == None
      ensures old(editingUser).Some? ==>
                requests == old(requests) + [UpdateUser(old(editingUser).value.id, old(editingUser).value)]
      ensures old(editingUser).Some? && reply.Ok? ==>
                users == ReplaceId(old(users), (u: User) => u.id, old(editingUser).value.id, reply.data)
                && !editUserDialog && editingUser == None
                && notices == old(notices) + [Success("Medewerker bijgewerkt!")]
      ensures old(editingUser).Some? && reply.Failed? ==>
                users == old(users) && editUserDialog == old(editUserDialog)
                && editingUser == old(editingUser)
                && notices == old(notices) + [Error("Kon medewerker niet bijwerken")]
    {
      loading := true;
      if editingUser.None? {
        notices := notices + [Error("Kon medewerker niet bijwerken")];
      } else {
        var edited := editingUser.value;
        requests := requests + [UpdateUser(edited.id, edited)];
        if reply.Ok? {
          notices := notices + [Success("Medewerker bijgewerkt!")];
          users := ReplaceId(users, (u: User) => u.id, edited.id, reply.data);
          editUserDialog := false;
          editingUser := None;
        } else {
          notices := notices + [Error("Kon medewerker niet bijwerken")];
        }
      }
      loading := false;
    }

    /** `handleDeleteUser`: after a successful delete everything is reloaded. */
    method HandleDeleteUser(confirmed: bool, id: string, reply: Reply<()>)
      modifies this`loading, this`requests, this`notices, this`users
      ensures !confirmed ==> (loading == old(loading) && requests == old(requests)
                && notices == old(notices) && users == old(users))
      ensures confirmed ==> !loading
      ensures confirmed && reply.Ok? ==>
                users == WithoutId(old(users), (u: User) => u.id, id)
                && requests == old(requests) + [DeleteUser(id), FetchAll]
                && notices == old(notices) + [Success("Medewerker verwijderd!")]
      ensures confirmed && reply.Failed? ==>
                users == old(users) && requests == old(requests) + [DeleteUser(id)]
                && notices == old(notices) + [Error(DetailOr(reply.detail, "Kon medewerker niet verwijderen"))]
    {
      if !confirmed {
        return;
      }
      loading := true;
      requests := requests + [DeleteUser(id)];
      if reply.Ok? {
        notices := notices + [Success("Medewerker verwijderd!")];
        users := WithoutId(users, (u: User) => u.id, id);
        requests := requests + [FetchAll];
      } else {
        notices := notices + [Error(DetailOr(reply.detail, "Kon medewerker niet verwijderen"))];
      }
      loading := false;
    }

    /** `handleEditInvitation`: a missing name is edited as "". */
    method HandleEditInvitation(inv: Invitation)
      modifies this`editingInvitation
      ensures editingInvitation == Some(InvitationEdit(inv.id, inv.email, if Truthy(inv.name) then inv.name.value else ""))
    {
      editingInvitation := Some(InvitationEdit(inv.id, inv.email, if Truthy(inv.name) then inv.name.value else ""));
    }

    /** `handleUpdateInvitation`: only the name of the edited invitation changes. */
    method HandleUpdateInvitation(reply: Reply<()>)
      modifies this`loading, this`requests, this`notices, this`invitations, this`editingInvitation
      ensures !loading
      ensures old(editingInvitation).None? ==>
                requests == old(requests) && invitations == old(invitations) && editingInvitation == None
                && notices == old(notices) + [Error(DetailOr(None, "Kon uitnodiging niet bijwerken"))]
      ensures old(editingInvitation).Some? ==>
                requests == old(requests) + [RenameInvitation(old(editingInvitation).value.id, old(editingInvitation).value.name)]
      ensures old(editingInvitation).Some? && reply.Ok? ==>
                invitations == Renamed(old(invitations), old(editingInvitation).value.id, old(editingInvitation).value.name)
                && editingInvitation == None
                && notices == old(notices) + [Success("Uitnodiging bijgewerkt!")]
      ensures old(editingInvitation).Some? && reply.Failed? ==>
                invitations == old(invitations) && editingInvitation == old(editingInvitation)
                && notices == old(notices) + [Error(DetailOr(reply.detail, "Kon uitnodiging niet bijwerken"))]
    {
      loading := true;
      if editingInvitation.None? {
        notices := notices + [Error(DetailOr(None, "Kon uitnodiging niet bijwerken"))];
      } else {
        var edit := editingInvitation.value;
        requests := requests + [RenameInvitation(edit.id, edit.name)];
        if reply.Ok? {
          notices := notices + [Success("Uitnodiging bijgewerkt!")];
          invitations := Renamed(invitations, edit.id, edit.name);
          editingInvitation := None;
        } else {
          notices := notices + [Error(DetailOr(reply.detail, "Kon uitnodiging niet bijwerken"))];
        }
      }
      loading := false;
    }

    /** `handleDeleteInvite`: ask to confirm deleting one invitation. */
    method HandleDeleteInvite(id: string)
      modifies this`itemsToDelete, this`deleteDialog
      ensures itemsToDelete == [id] && deleteDialog
    {
      itemsToDelete := [id];
      deleteDialog := true;
    }

    /** `handleBulkDelete`: with nothing selected it shows an error and opens no
        dialog; otherwise it asks to confirm deleting the selection. */
    method HandleBulkDelete()
      modifies this`itemsToDelete, this`deleteDialog, this`notices
      ensures selected == [] ==>
                notices == old(notices) + [Error("Selecteer minimaal \U{00E9}\U{00E9}n uitnodiging")]
                && itemsToDelete == old(itemsToDelete) && deleteDialog == old(deleteDialog)
      ensures selected != [] ==> notices == old(notices) && itemsToDelete == selected && deleteDialog
    {
      if |selected| == 0 {
        notices := notices + [Error("Selecteer minimaal \U{00E9}\U{00E9}n uitnodiging")];
        return;
      }
      itemsToDelete := selected;
      deleteDialog := true;
    }

    /** `confirmDelete`: only on success are exactly the invitations whose ids
        were to be deleted removed, and the selection cleared. */
    method ConfirmDelete(reply: Reply<()>)
      modifies this`loading, this`requests, this`notices, this`invitations
      modifies this`selected, this`deleteDialog, this`itemsToDelete
      ensures !loading && requests == old(requests) + [DeleteRequest(old(itemsToDelete))]
      ensures reply.Ok? ==>
                invitations == WithoutIds(old(invitations), old(itemsToDelete))
                && selected == [] && !deleteDialog && itemsToDelete == []
                && notices == old(notices) + [Success(DeletedText(|old(itemsToDelete)|))]
      ensures reply.Failed? ==>
                invitations == old(invitations) && selected == old(selected)
                && deleteDialog == old(deleteDialog) && itemsToDelete == old(itemsToDelete)
                && notices == old(notices) + [Error(DetailOr(reply.detail, "Kon uitnodigingen niet verwijderen"))]
    {
      loading := true;
      requests := requests + [DeleteRequest(itemsToDelete)];
      if reply.Ok? {
        notices := notices + [Success(DeletedText(|itemsToDelete|))];
        invitations := WithoutIds(invitations, itemsToDelete);
        selected := [];
        deleteDialog := false;
        itemsToDelete := [];
      } else {
        notices := notices + [Error(DetailOr(reply.detail, "Kon uitnodigingen niet verwijderen"))];
      }
      loading := false;
    }

    method ToggleInvitationSelection(id: string)
      modifies this`selected
      ensures selected == Toggle(old(selected), id)
      ensures NoDuplicates(old(selected)) ==> NoDuplicates(selected)
    {
      if NoDuplicates(selected) {
        ToggleNoDuplicates(selected, id);
      }
      selected := Toggle(selected, id);
    }

    method ToggleSelectAll()
      modifies this`selected
      ensures selected == SelectAll(old(selected), FilteredInvitations(invitations, invitationSearch))
    {
      selected := SelectAll(selected, FilteredInvitations(invitations, invitationSearch));
    }

    /** `handleChangePassword`: the two checks run in order before any request. */
    method HandleChangePassword(reply: Reply<()>)
      modifies this`loading, this`requests, this`notices, this`passwordDialog, this`passwordForm
      ensures var problem := PasswordProblem(old(passwordForm).newPassword, old(passwordForm).confirmPassword,
                                             "Nieuwe wachtwoorden komen niet overeen");
              && (problem.Some? ==>
                    notices == old(notices) + [Error(problem.value)] && requests == old(requests)
                    && loading == old(loading) && passwordDialog == old(passwordDialog)
                    && passwordForm == old(passwordForm))
              && (problem.None? ==>
                    !loading
                    && requests == old(requests) + [ChangePassword(old(passwordForm).oldPassword, old(passwordForm).newPassword)])
              && (problem.None? && reply.Ok? ==>
                    notices == old(notices) + [Success("Wachtwoord succesvol gewijzigd!")]
                    && !passwordDialog && passwordForm == EmptyPasswordForm)
              && (problem.None? && reply.Failed? ==>
                    notices == old(notices) + [Error(DetailOr(reply.detail, "Kon wachtwoord niet wijzigen"))]
                    && passwordDialog == old(passwordDialog) && passwordForm == old(passwordForm))
    {
      var problem := PasswordProblem(passwordForm.newPassword, passwordForm.confirmPassword,
                                     "Nieuwe wachtwoorden komen niet overeen");
      if problem.Some? {
        notices := notices + [Error(problem.value)];
        return;
      }
      loading := true;
      requests := requests + [ChangePassword(passwordForm.oldPassword, passwordForm.newPassword)];
      if reply.Ok? {
        notices := notices + [Success("Wachtwoord succesvol gewijzigd!")];
        passwordDialog := false;
        passwordForm := EmptyPasswordForm;
      } else {
        notices := notices + [Error(DetailOr(reply.detail, "Kon wachtwoord niet wijzigen"))];
      }
      loading := false;
    }
  }
}
