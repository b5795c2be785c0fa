/** The employee dashboard: choosing a company and a project, the two-step
    clock-in and clock-out flows (capture a location, confirm, submit), the
    advisory radius verdict shown before clocking out, the elapsed-time display
    and the total of worked hours. */
module EmployeeDashboard {

  import opened Common
  import opened Strings
  import opened Lists

  datatype Project = Project(
    id: string,
    name: string,
    company: string,
    locationLat: Option<real>,
    locationLon: Option<real>,
    locationRadius: Option<int>)

  /** A clock entry as `/clock/status` and `/clock/entries` return it. */
  datatype Entry = Entry(id: string, projectId: string, status: string, totalHours: Option<real>)

  /** The clock-in form. */
  datatype ClockInForm = ClockInForm(projectId: string, note: string)

  /** What the clock-in confirmation dialog shows; `dateTime` is the local
      time string taken when the dialog opened. */
  datatype ClockInConfirmation = ClockInConfirmation(project: Option<Project>, dateTime: string, note: string)

  /** What the clock-out confirmation dialog shows: the captured location, the
      project of the open entry, and the distance and radius verdict, both null
      when they could not be computed. */
  datatype ClockOutConfirmation = ClockOutConfirmation(
    location: Location,
    project: Option<Project>,
    distance: Option<nat>,
    withinRadius: Option<bool>)

  /** The calls this screen makes to the backend. */
  datatype Request =
    | ClockIn(form: ClockInForm, location: Location)
    | ClockOut(entryId: string, location: Location)
    | FetchStatus
    | FetchEntries

  const EmptyForm := ClockInForm("", "")
  const DefaultRadius: int := 50

  // ---------------------------------------------------------------------------
  // formatTime

  /** Whole hours, minutes and seconds of a duration in seconds. */
  function TimeFields(seconds: nat): (f: (nat, nat, nat))
    ensures f.0 * 3600 + f.1 * 60 + f.2 == seconds
    ensures f.1 < 60 && f.2 < 60
    ensures seconds < 360000 ==> f.0 < 100
  {
    (seconds / 3600, (seconds % 3600) / 60, seconds % 60)
  }

  /** `formatTime`: `HH:MM:SS`, each field at least two digits. Reading the
      string back gives the duration, and it is exactly eight characters while
      the duration is under 100 hours. */
  function FormatTime(seconds: nat): (r: string)
    ensures ParseTime(r) == Some(seconds)
    ensures |r| >= 8
    ensures seconds < 360000 ==> |r| == 8
  {
    var f := TimeFields(seconds);
    FieldsFormat(f.0, f.1, f.2, seconds);
    FormatFields(f.0, f.1, f.2)
  }

  lemma FieldsFormat(h: nat, m: nat, s: nat, seconds: nat)
    requires m < 60 && s < 60 && h * 3600 + m * 60 + s == seconds
    ensures ParseTime(FormatFields(h, m, s)) == Some(seconds)
    ensures |FormatFields(h, m, s)| >= 8
    ensures seconds < 360000 ==> |FormatFields(h, m, s)| == 8
  {
    var r := FormatFields(h, m, s);
    assert ParseTime(r) == Some(h * 3600 + m * 60 + s);
    assert seconds < 360000 ==> h < 100;
  }

  /** Hours, minutes and seconds, each padded to two digits, joined by ':'. */
  function FormatFields(h: nat, m: nat, s: nat): (r: string)
    requires m < 60 && s < 60
    ensures ParseTime(r) == Some(h * 3600 + m * 60 + s)
    ensures |r| >= 8
    ensures h < 100 ==> |r| == 8
  {
    FormatTimeParses(h, m, s);
    FormatTimeLength(h, m, s);
    Pad2(h) + ":" + Pad2(m) + ":" + Pad2(s)
  }

  /** The reading of `HH:MM:SS` that FormatTime inverts: at least two hour digits,
      exactly two minute and second digits, minutes and seconds below 60. */
  function ParseTime(s: string): (r: Option<nat>)
  {
    ParseFields(Split(s, ':'))
  }

  function ParseFields(parts: seq<string>): (r: Option<nat>)
  {
    if |parts| == 3 && |parts[0]| >= 2 && |parts[1]| == 2 && |parts[2]| == 2
       && AllDigits(parts[0]) && AllDigits(parts[1]) && AllDigits(parts[2])
       && DecimalValue(parts[1]) < 60 && DecimalValue(parts[2]) < 60
    then Some(DecimalValue(parts[0]) * 3600 + DecimalValue(parts[1]) * 60 + DecimalValue(parts[2]))
    else None
  }

  lemma FormatTimeParses(h: nat, m: nat, s: nat)
    requires m < 60 && s < 60
    ensures ParseTime(Pad2(h) + ":" + Pad2(m) + ":" + Pad2(s)) == Some(h * 3600 + m * 60 + s)
  {
    var ph, pm, ps := Pad2(h), Pad2(m), Pad2(s);
    FieldsParse(ph, pm, ps, h, m, s);
    NoColon(ph);
    NoColon(pm);
    NoColon(ps);
    JoinedParses(ph, pm, ps);
  }

  lemma FormatTimeLength(h: nat, m: nat, s: nat)
    requires m < 60 && s < 60
    ensures |Pad2(h) + ":" + Pad2(m) + ":" + Pad2(s)| >= 8
    ensures h < 100 ==> |Pad2(h) + ":" + Pad2(m) + ":" + Pad2(s)| == 8
  {
  }

  lemma FieldsParse(ph: string, pm: string, ps: string, h: nat, m: nat, s: nat)
    requires m < 60 && s < 60
    requires AllDigits(ph) && AllDigits(pm) && AllDigits(ps) && |ph| >= 2 && |pm| == 2 && |ps| == 2
    requires DecimalValue(ph) == h && DecimalValue(pm) == m && DecimalValue(ps) == s
    ensures ParseFields([ph, pm, ps]) == Some(h * 3600 + m * 60 + s)
  {
  }

  lemma JoinedParses(ph: string, pm: string, ps: string)
    requires ':' !in ph && ':' !in pm && ':' !in ps
    ensures ParseTime(ph + ":" + pm + ":" + ps) == ParseFields([ph, pm, ps])
  {
    SplitThree(ph, pm, ps, ':');
    assert ph + ":" + pm + ":" + ps == ph + [':'] + pm + [':'] + ps;
  }

  lemma NoColon(digits: string)
    requires AllDigits(digits)
    ensures ':' !in digits
  {
  }

  // ---------------------------------------------------------------------------
  // Company and project choice

  /** `[...new Set(projects.map(p => p.company))]`. */
  function CompanyOptions(projects: seq<Project>): (r: seq<string>)
    ensures NoDuplicates(r)
    ensures forall c :: c in r <==> exists p | p in projects :: p.company == c
  {
    var companies := Map(projects, (p: Project) => p.company);
    assert forall c :: c in companies <==> exists p | p in projects :: p.company == c by {
      forall c | c in companies ensures exists p | p in projects :: p.company == c {
        var i :| 0 <= i < |companies| && companies[i] == c;
        assert projects[i] in projects;
      }
      forall c | exists p | p in projects :: p.company == c ensures c in companies {
        var p :| p in projects && p.company == c;
        var i :| 0 <= i < |projects| && projects[i] == p;
        assert companies[i] == c;
      }
    }
    Distinct(companies)
  }

  /** `projects.filter(p => p.company === selectedCompany)`. */
  function ProjectOptions(projects: seq<Project>, company: string): (r: seq<Project>)
    ensures forall p :: p in r <==> p in projects && p.company == company
  {
    Filter(projects, (p: Project) => p.company == company)
  }

  /** Every company offered has at least one project to choose, and every project
      is offered under its own company. */
  lemma OptionsCoverProjects(projects: seq<Project>)
    ensures forall c | c in CompanyOptions(projects) :: ProjectOptions(projects, c) != []
    ensures forall p | p in projects :: p.company in CompanyOptions(projects) && p in ProjectOptions(projects, p.company)
  {
    forall c | c in CompanyOptions(projects)
      ensures ProjectOptions(projects, c) != []
    {
      var p :| p in projects && p.company == c;
      assert p in ProjectOptions(projects, c);
    }
  }

  /** `projects.find(p => p.id === id)`: the first project with that id. */
  function FindProject(projects: seq<Project>, id: string): (r: Option<Project>)
    ensures r.None? <==> forall p | p in projects :: p.id != id
    ensures r.Some? ==> r.value in projects && r.value.id == id
    ensures r.Some? ==> exists i | 0 <= i < |projects| :: projects[i] == r.value && forall j | 0 <= j < i :: projects[j].id != id
  {
    if projects == [] then None
    else if projects[0].id == id then Some(projects[0])
    else
      var r := FindProject(projects[1..], id);
      assert forall p | p in projects[1..] :: p in projects;
      assert forall p | p in projects :: p == projects[0] || p in projects[1..];
      if r.Some? then
        FoundLater(projects, id, r.value);
        r
      else r
  }

  /** A first match in the tail is a first match in the whole list when the
      head does not match. */
  lemma FoundLater(projects: seq<Project>, id: string, v: Project)
    requires |projects| > 0 && projects[0].id != id
    requires exists k | 0 <= k < |projects[1..]| :: projects[1..][k] == v && forall j | 0 <= j < k :: projects[1..][j].id != id
    ensures exists i | 0 <= i < |projects| :: projects[i] == v && forall j | 0 <= j < i :: projects[j].id != id
  {
    var k :| 0 <= k < |projects[1..]| && projects[1..][k] == v && forall j | 0 <= j < k :: projects[1..][j].id != id;
    assert projects[k + 1] == v;
    forall j | 0 <= j < k + 1 ensures projects[j].id != id {
      if j > 0 { assert projects[j] == projects[1..][j - 1]; }
    }
  }

  // ---------------------------------------------------------------------------
  // The clock-out radius verdict

  /** `project && project.location_lat && project.location_lon`. */
  predicate HasCoordinates(project: Option<Project>)
  {
    project.Some? && TruthyReal(project.value.locationLat) && TruthyReal(project.value.locationLon)
  }

  /** `project.location_radius || 50`: a missing or zero radius means 50 metres. */
  function EffectiveRadius(p: Project): (r: int)
    ensures p.locationRadius.None? || p.locationRadius == Some(0) ==> r == DefaultRadius
    ensures p.locationRadius.Some? && p.locationRadius.value != 0 ==> r == p.locationRadius.value
  {
    match p.locationRadius
    case Some(radius) => if radius != 0 then radius else DefaultRadius
    case None => DefaultRadius
  }

  /** A clock-out confirmation is consistent when distance and verdict are present
      exactly for a project with coordinates, and the verdict is the inclusive
      comparison of that distance with the effective radius. */
  predicate Consistent(c: ClockOutConfirmation)
  {
    (c.distance.Some? <==> HasCoordinates(c.project))
    && (c.withinRadius.Some? <==> HasCoordinates(c.project))
    && (HasCoordinates(c.project) ==>
          c.withinRadius.value == (c.distance.value <= EffectiveRadius(c.project.value)))
  }

  /** The object `handleClockOut` stores, for a captured location, the project of
      the open entry and the distance to it in metres. */
  function ClockOutData(location: Location, project: Option<Project>, distance: nat): (c: ClockOutConfirmation)
    ensures Consistent(c)
    ensures c.location == location && c.project == project
    ensures HasCoordinates(project) ==> c.distance == Some(distance)
  {
    if HasCoordinates(project) then
      ClockOutConfirmation(location, project, Some(distance), Some(distance <= EffectiveRadius(project.value)))
    else
      ClockOutConfirmation(location, project, None, None)
  }

  /** The radius is inclusive: a distance equal to the radius is within it, one
      metre more is outside it. */
  lemma RadiusBoundary(location: Location, p: Project)
    requires HasCoordinates(Some(p)) && EffectiveRadius(p) >= 0
    ensures ClockOutData(location, Some(p), EffectiveRadius(p) as nat).withinRadius == Some(true)
    ensures ClockOutData(location, Some(p), EffectiveRadius(p) as nat + 1).withinRadius == Some(false)
  {
  }

  /** A radius of 0 behaves exactly like the default of 50 metres. */
  lemma ZeroRadiusIsDefault(location: Location, p: Project, distance: nat)
    requires p.locationRadius == Some(0)
    ensures ClockOutData(location, Some(p), distance).withinRadius
         == ClockOutData(location, Some(p.(locationRadius := Some(DefaultRadius))), distance).withinRadius
  {
  }

  /** Coming closer never turns a "within" verdict into "outside". */
  lemma VerdictMonotone(location: Location, project: Option<Project>, near: nat, far: nat)
    requires near <= far
    requires ClockOutData(location, project, far).withinRadius == Some(true)
    ensures ClockOutData(location, project, near).withinRadius == Some(true)
  {
  }

  /** What `handleClockOut` does as written once it has a location: a project
      with coordinates leads to a call of `calculateDistance`, which is not
      defined anywhere, so the call throws, the dialog stays shut and the catch
      shows its GPS toast (None); only a project without coordinates reaches
      the dialog. */
  function ClockOutAsWritten(location: Location, project: Option<Project>): (c: Option<ClockOutConfirmation>)
    ensures c.None? <==> HasCoordinates(project)
    ensures c.Some? ==> c.value.location == location && c.value.project == project
    ensures c.Some? ==> c.value.distance == None && c.value.withinRadius == None
  {
    if HasCoordinates(project) then None
    else Some(ClockOutConfirmation(location, project, None, None))
  }

  /** Where the two agree and where they part: without coordinates the code as
      written stores what ClockOutData stores; with coordinates it never opens
      the dialog, while ClockOutData gives the radius verdict the dialog was
      written to show. */
  lemma ClockOutAsWrittenFails(location: Location, project: Option<Project>, distance: nat)
    ensures !HasCoordinates(project) ==> ClockOutAsWritten(location, project) == Some(ClockOutData(location, project, distance))
    ensures HasCoordinates(project) ==>
              ClockOutAsWritten(location, project).None? && ClockOutData(location, project, distance).withinRadius.Some?
  {
  }

  /** A project on the map, one metre from the worker. */
  lemma ClockOutAsWrittenExample(location: Location)
    ensures var p := Project("p1", "Bouw", "Acme", Some(52.09), Some(5.12), None);
            ClockOutAsWritten(location, Some(p)).None? && ClockOutData(location, Some(p), 1).withinRadius == Some(true)
  {
  }

  // ---------------------------------------------------------------------------
  // Failure notices

  const TooFarText := "Te ver van project locatie"
  const RadiusText := "50m"
  const ClockInFallback := "Kon niet inklokken"
  const AlertPrefix := "\U{274C} INKLOKKEN NIET MOGELIJK\n\n"
  const AlertSuffix := "\n\nJe moet binnen 50 meter van de projectlocatie zijn om in te kunnen klokken.\n\nControleer:\n\U{2022} Ben je op de juiste locatie?\n\U{2022} Staat je GPS aan?\n\U{2022} Heeft de app locatie toestemming?"

  /** The blocking alert shown when the server refuses a clock-in for distance. */
  function DistanceAlert(message: string): (r: string)
    ensures Contains(r, message)
  {
    ContainsMiddle(AlertPrefix, message, AlertSuffix);
    AlertPrefix + message + AlertSuffix
  }

  /** The message of a failed clock-in: `error.response?.data?.detail || "Kon niet inklokken"`. */
  function ClockInMessage(detail: Option<string>): (message: string)
    ensures message != ""
  {
    DetailOr(detail, ClockInFallback)
  }

  /** The test that picks the blocking alert. */
  predicate SpeaksOfDistance(message: string)
  {
    Contains(message, TooFarText) || Contains(message, RadiusText)
  }

  /** How a failed clock-in is reported: a blocking alert that quotes the message
      when it speaks of the distance rule, a toast with the message otherwise. */
  function ClockInFailure(detail: Option<string>): (n: Notice)
    ensures n.Alert? <==> SpeaksOfDistance(ClockInMessage(detail))
    ensures !SpeaksOfDistance(ClockInMessage(detail)) ==> n == Error(ClockInMessage(detail))
  {
    if SpeaksOfDistance(ClockInMessage(detail)) then Alert(DistanceAlert(ClockInMessage(detail)))
    else Error(ClockInMessage(detail))
  }

  /** The alert quotes the message it replaces. */
  lemma AlertQuotesMessage(detail: Option<string>)
    ensures ClockInFailure(detail).Alert? ==> Contains(ClockInFailure(detail).text, ClockInMessage(detail))
  {
  }

  /** A string that lacks the first character of q does not contain q. */
  lemma MissingFirstChar(s: string, q: string)
    requires q != [] && q[0] !in s
    ensures !Contains(s, q)
  {
  }

  /** Without a server detail (a refused or failed location request, or a
      network error) the failure is a plain toast with the fallback text. */
  lemma FallbackIsToast()
    ensures ClockInFailure(None) == Error(ClockInFallback)
  {
    assert 'T' !in ClockInFallback && '5' !in ClockInFallback;
    MissingFirstChar(ClockInFallback, TooFarText);
    MissingFirstChar(ClockInFallback, RadiusText);
  }

  // ---------------------------------------------------------------------------
  // getTotalHours

  predicate ClockedOut(e: Entry)
  {
    e.status == "clocked_out"
  }

  /** `entry.total_hours || 0`. */
  function HoursOrZero(e: Entry): real
  {
    if e.totalHours.Some? then e.totalHours.value else 0.0
  }

  /** `getTotalHours`: the hours of the clocked-out entries. */
  function TotalHours(entries: seq<Entry>): (t: real)
  {
    Sum(Filter(entries, ClockedOut), HoursOrZero)
  }

  /** The total counts an entry's hours exactly when it is clocked out: adding an
      open entry changes nothing, adding a closed one adds its hours. */
  lemma TotalHoursAppend(entries: seq<Entry>, e: Entry)
    ensures TotalHours(entries + [e]) == TotalHours(entries) + (if ClockedOut(e) then HoursOrZero(e) else 0.0)
  {
    FilterAppend(entries, [e], ClockedOut);
    SumAppend(Filter(entries, ClockedOut), Filter([e], ClockedOut), HoursOrZero);
    assert [e][1..] == [];
    if ClockedOut(e) {
      assert Filter([e], ClockedOut) == [e];
      assert [e][..0] == [];
    } else {
      assert Filter([e], ClockedOut) == [];
    }
  }

  /** With no negative hours recorded the total is not negative. */
  lemma TotalHoursNonNegative(entries: seq<Entry>)
    requires forall e | e in entries :: HoursOrZero(e) >= 0.0
    ensures TotalHours(entries) >= 0.0
  {
    SumNonNegative(Filter(entries, ClockedOut), HoursOrZero);
  }

  // ---------------------------------------------------------------------------
  // The dashboard state

  class Dashboard {
    var projects: seq<Project>
    var entries: seq<Entry>
    var clockedIn: bool
    var entry: Option<Entry>
    var selectedCompany: string
    var form: ClockInForm
    var confirmDialog: bool
    var confirmData: Option<ClockInConfirmation>
    var clockOutConfirmDialog: bool
    var clockOutConfirmData: Option<ClockOutConfirmation>
    var loading: bool
    var gettingLocation: bool
    var location: Option<Location>
    /** The toasts and alerts shown so far, oldest first. */
    var notices: seq<Notice>
    /** The backend calls made so far, oldest first. */
    var requests: seq<Request>

    /** An open dialog always has its data, and stored clock-out data is
        consistent. */
    predicate Valid()
      reads this
    {
      (confirmDialog ==> confirmData.Some?)
      && (clockOutConfirmDialog ==> clockOutConfirmData.Some?)
      && (clockOutConfirmData.Some? ==> Consistent(clockOutConfirmData.value))
    }

    constructor ()
      ensures Valid()
      ensures projects == [] && entries == [] && !clockedIn && entry == None
      ensures selectedCompany == "" && form == EmptyForm
      ensures !confirmDialog && confirmData == None
      ensures !clockOutConfirmDialog && clockOutConfirmData == None
      ensures !loading && !gettingLocation && location == None
      ensures notices == [] && requests == []
    {
      projects, entries, clockedIn, entry := [], [], false, None;
      selectedCompany, form := "", EmptyForm;
      confirmDialog, confirmData := false, None;
      clockOutConfirmDialog, clockOutConfirmData := false, None;
      loading, gettingLocation, location := false, false, None;
      notices, requests := [], [];
    }

    /** `fetchProjects` once the reply arrives. */
    method LoadProjects(reply: Reply<seq<Project>>)
      modifies this`projects, this`notices
      ensures reply.Ok? ==> projects == reply.data && notices == old(notices)
      ensures reply.Failed? ==> projects == old(projects) && notices == old(notices) + [Error("Kon projecten niet laden")]
    {
      if reply.Ok? {
        projects := reply.data;
      } else {
        notices := notices + [Error("Kon projecten niet laden")];
      }
    }

    /** `fetchClockStatus` once the reply arrives; a failure is only logged. */
    method LoadStatus(reply: Reply<(bool, Option<Entry>)>)
      modifies this`clockedIn, this`entry
      ensures reply.Ok? ==> clockedIn == reply.data.0 && entry == reply.data.1
      ensures reply.Failed? ==> clockedIn == old(clockedIn) && entry == old(entry)
    {
      if reply.Ok? {
        clockedIn, entry := reply.data.0, reply.data.1;
      }
    }

    /** `fetchClockEntries` once the reply arrives. */
    method LoadEntries(reply: Reply<seq<Entry>>)
      modifies this`entries, this`notices
      ensures reply.Ok? ==> entries == reply.data && notices == old(notices)
      ensures reply.Failed? ==> entries == old(entries) && notices == old(notices) + [Error("Kon uren niet laden")]
    {
      if reply.Ok? {
        entries := reply.data;
      } else {
        notices := notices + [Error("Kon uren niet laden")];
      }
    }

    /** Choosing a company clears the chosen project. */
    method SelectCompany(company: string)
      modifies this`selectedCompany, this`form
      ensures selectedCompany == company
      ensures form == old(form).(projectId := "")
    {
      selectedCompany := company;
      form := form.(projectId := "");
    }

    method SelectProject(id: string)
      modifies this`form
      ensures form == old(form).(projectId := id)
    {
      form := form.(projectId := id);
    }

    /** `handleClockIn`: without a chosen project it shows an error and opens
        nothing; otherwise it opens the confirmation with the chosen project. */
    method HandleClockIn(dateTime: string)
      requires Valid()
      modifies this`notices, this`confirmData, this`confirmDialog
      ensures Valid()
      ensures form.projectId == "" ==>
                notices == old(notices) + [Error("Selecteer eerst een project")]
                && confirmDialog == old(confirmDialog) && confirmData == old(confirmData)
      ensures form.projectId != "" ==>
                notices == old(notices) && confirmDialog
                && confirmData == Some(ClockInConfirmation(FindProject(projects, form.projectId), dateTime, form.note))
    {
      if form.projectId == "" {
        notices := notices + [Error("Selecteer eerst een project")];
        return;
      }
      confirmData := Some(ClockInConfirmation(FindProject(projects, form.projectId), dateTime, form.note));
      confirmDialog := true;
    }

    /** The cancel button of the clock-in confirmation. */
    method CancelClockIn()
      requires Valid()
      modifies this`confirmDialog, this`confirmData
      ensures Valid()
      ensures !confirmDialog && confirmData == None
    {
      confirmDialog, confirmData := false, None;
    }

    /** `confirmClockIn`: the dialog closes before the location is requested; the
        form is posted with exactly the captured location; only success resets
        the form and the confirmation data and refreshes status and entries. */
    method ConfirmClockIn(fix: Fix, reply: Reply<()>)
      requires Valid()
      modifies this`loading, this`confirmDialog, this`gettingLocation, this`location
      modifies this`requests, this`notices, this`form, this`confirmData
      ensures Valid()
      ensures !loading && !confirmDialog
      ensures gettingLocation == (if fix.Unsupported? then old(gettingLocation) else false)
      ensures fix.Located? ==> location == Some(fix.loc)
      ensures !fix.Located? ==> location == old(location)
      ensures !fix.Located? ==>
                requests == old(requests) && notices == old(notices) + [Error(ClockInFallback)]
                && form == old(form) && confirmData == old(confirmData)
      ensures fix.Located? && reply.Ok? ==>
                requests == old(requests) + [ClockIn(old(form), fix.loc), FetchStatus, FetchEntries]
                && notices == old(notices) + [Success("Ingeklokt!")]
                && form == EmptyForm && confirmData == None
      ensures fix.Located? && reply.Failed? ==>
                requests == old(requests) + [ClockIn(old(form), fix.loc)]
                && notices == old(notices) + [ClockInFailure(reply.detail)]
                && form == old(form) && confirmData == old(confirmData)
    {
      loading := true;
      confirmDialog := false;
      if !fix.Located? {
        if fix.PlatformError? {
          gettingLocation := false;
        }
        notices := notices + [Error(ClockInFallback)];
      } else {
        gettingLocation := false;
        location := Some(fix.loc);
        SubmitClockIn(fix.loc, reply);
      }
      loading := false;
    }

    /** The post of `confirmClockIn` once a location is in hand. */
    method SubmitClockIn(loc: Location, reply: Reply<()>)
      requires Valid() && !confirmDialog
      modifies this`requests, this`notices, this`form, this`confirmData
      ensures Valid()
      ensures reply.Ok? ==>
                requests == old(requests) + [ClockIn(old(form), loc), FetchStatus, FetchEntries]
                && notices == old(notices) + [Success("Ingeklokt!")]
                && form == EmptyForm && confirmData == None
      ensures reply.Failed? ==>
                requests == old(requests) + [ClockIn(old(form), loc)]
                && notices == old(notices) + [ClockInFailure(reply.detail)]
                && form == old(form) && confirmData == old(confirmData)
    {
      requests := requests + [ClockIn(form, loc)];
      if reply.Ok? {
        notices := notices + [Success("Ingeklokt!")];
        form := EmptyForm;
        confirmData := None;
        requests := requests + [FetchStatus, FetchEntries];
      } else {
        notices := notices + [ClockInFailure(reply.detail)];
      }
    }

    /** `handleClockOut`: with an open entry it captures a location and opens the
        confirmation with the radius verdict for the entry's project; it never
        calls the backend. `distance` stands for the distance in metres from the
        captured location to the project. */
    method HandleClockOut(fix: Fix, distance: nat)
      requires Valid()
      modifies this`gettingLocation, this`location, this`clockOutConfirmData
      modifies this`clockOutConfirmDialog, this`notices
      ensures Valid()
      ensures old(entry).None? ==>
                gettingLocation == old(gettingLocation) && location == old(location)
                && clockOutConfirmData == old(clockOutConfirmData)
                && clockOutConfirmDialog == old(clockOutConfirmDialog) && notices == old(notices)
      ensures entry.Some? ==> !gettingLocation
      ensures entry.Some? && fix.Located? ==>
                location == Some(fix.loc) && clockOutConfirmDialog && notices == old(notices)
                && clockOutConfirmData == Some(ClockOutData(fix.loc, FindProject(projects, entry.value.projectId), distance))
      ensures entry.Some? && !fix.Located? ==>
                location == old(location) && clockOutConfirmDialog == old(clockOutConfirmDialog)
                && clockOutConfirmData == old(clockOutConfirmData)
                && notices == old(notices) + [Error("Kon GPS locatie niet ophalen. Controleer toestemming.")]
    {
      if entry.None? {
        return;
      }
      gettingLocation := true;
      if fix.Located? {
        location := Some(fix.loc);
        var project := FindProject(projects, entry.value.projectId);
        clockOutConfirmData := Some(ClockOutData(fix.loc, project, distance));
        clockOutConfirmDialog := true;
      } else {
        notices := notices + [Error("Kon GPS locatie niet ophalen. Controleer toestemming.")];
      }
      gettingLocation := false;
    }

    /** The cancel button of the clock-out confirmation. */
    method CancelClockOut()
      requires Valid()
      modifies this`clockOutConfirmDialog, this`clockOutConfirmData
      ensures Valid()
      ensures !clockOutConfirmDialog && clockOutConfirmData == None
    {
      clockOutConfirmDialog, clockOutConfirmData := false, None;
    }

    /** `confirmClockOut`: nothing without confirmation data; otherwise it posts
        exactly the stored location for the open entry, and clears the dialog and
        the data only on success. Without an open entry the request cannot be
        built and the fallback error is shown. */
    method ConfirmClockOut(reply: Reply<()>)
      requires Valid()
      modifies this`loading, this`requests, this`notices
      modifies this`clockOutConfirmDialog, this`clockOutConfirmData
      ensures Valid()
      ensures old(clockOutConfirmData).None? ==>
                loading == old(loading) && requests == old(requests) && notices == old(notices)
                && clockOutConfirmDialog == old(clockOutConfirmDialog) && clockOutConfirmData == None
      ensures old(clockOutConfirmData).Some? ==> !loading
      ensures old(clockOutConfirmData).Some? && entry.None? ==>
                requests == old(requests) && notices == old(notices) + [Error("Kon niet uitklokken.")]
                && clockOutConfirmDialog == old(clockOutConfirmDialog)
                && clockOutConfirmData == old(clockOutConfirmData)
      ensures old(clockOutConfirmData).Some? && entry.Some? && reply.Ok? ==>
                requests == old(requests) + [ClockOut(entry.value.id, old(clockOutConfirmData).value.location), FetchStatus, FetchEntries]
                && notices == old(notices) + [Success("Uitgeklokt!")]
                && !clockOutConfirmDialog && clockOutConfirmData == None
      ensures old(clockOutConfirmData).Some? && entry.Some? && reply.Failed? ==>
                requests == old(requests) + [ClockOut(entry.value.id, old(clockOutConfirmData).value.location)]
                && notices == old(notices) + [Error(DetailOr(reply.detail, "Kon niet uitklokken."))]
                && clockOutConfirmDialog == old(clockOutConfirmDialog)
                && clockOutConfirmData == old(clockOutConfirmData)
    {
      if clockOutConfirmData.None? {
        return;
      }
      loading := true;
      if entry.None? {
        notices := notices + [Error("Kon niet uitklokken.")];
      } else {
        requests := requests + [ClockOut(entry.value.id, clockOutConfirmData.value.location)];
        if reply.Ok? {
          notices := notices + [Success("Uitgeklokt!")];
          clockOutConfirmDialog := false;
          clockOutConfirmData := None;
          requests := requests + [FetchStatus, FetchEntries];
        } else {
          notices := notices + [Error(DetailOr(reply.detail, "Kon niet uitklokken."))];
        }
      }
      loading := false;
    }
  }
}
