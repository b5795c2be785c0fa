/** The admin's Mandagenstaat page (the Dutch statement of days worked per
    project): the filter form with its week shortcut, generating the statement,
    and exporting it as a PDF or Excel download. */
module MandagenstPage {

  import opened Common
  import opened Strings
  import opened Lists
  import opened Calendar

  /** The filter form; every field is the string its input holds. */
  datatype Filters = Filters(startDate: string, endDate: string, projectId: string, userId: string, weekNumber: string)

  const EmptyFilters := Filters("", "", "", "", "")

  /** One `URLSearchParams` entry, in the order it is appended. */
  datatype Param = Param(key: string, value: string)

  datatype Kind = Pdf | Excel

  /** The statement as the server returned it; the page only stores and shows it. */
  datatype Report = Report(content: string)

  datatype Request = Generate(params: seq<Param>) | Export(kind: Kind, params: seq<Param>)

  // ---------------------------------------------------------------------------
  // Query parameters

  /** A statement needs a period and a project. */
  predicate CanGenerate(f: Filters)
  {
    f.startDate != "" && f.endDate != "" && f.projectId != ""
  }

  function BaseParams(f: Filters): seq<Param>
  {
    [Param("start_date", f.startDate), Param("end_date", f.endDate), Param("project_id", f.projectId)]
  }

  /** Generating sends the user filter whenever it is set, "all" included. */
  function GenerateParams(f: Filters): (ps: seq<Param>)
    ensures |ps| == if f.userId != "" then 4 else 3
    ensures ps[..3] == BaseParams(f)
    ensures Param("user_id", f.userId) in ps <==> f.userId != ""
  {
    BaseParams(f) + (if f.userId != "" then [Param("user_id", f.userId)] else [])
  }

  /** Exporting leaves the user filter out when it is empty or "all". */
  function ExportParams(f: Filters): (ps: seq<Param>)
    ensures |ps| == if f.userId != "" && f.userId != "all" then 4 else 3
    ensures ps[..3] == BaseParams(f)
    ensures Param("user_id", f.userId) in ps <==> f.userId != "" && f.userId != "all"
  {
    BaseParams(f) + (if f.userId != "" && f.userId != "all" then [Param("user_id", f.userId)] else [])
  }

  /** The two requests differ only in the "all employees" choice: generating
      sends `user_id=all`, exporting sends no user filter at all. */
  lemma ParamsDifferOnlyForAll(f: Filters)
    ensures GenerateParams(f) == ExportParams(f) <==> f.userId != "all"
    ensures f.userId == "all" ==> GenerateParams(f) == ExportParams(f) + [Param("user_id", "all")]
  {
    if f.userId == "all" {
      assert |GenerateParams(f)| != |ExportParams(f)|;
    }
  }

  // ---------------------------------------------------------------------------
  // What an export call produces

  /** `JSON.parse` of an error body: not JSON at all, the JSON `null` (whose
      `.detail` throws as well), or any other value with its string `detail` and
      `message` properties (absent on a scalar). */
  datatype ErrorBody = NotJson | JsonNull | JsonValue(detail: Option<string>, message: Option<string>)

  /** A response axios resolves with: every status from 200 to 599. `text` is
      the body read as text, `json` what `JSON.parse` makes of it. */
  datatype Response = Response(
    status: nat, statusText: string,
    contentType: Option<string>, disposition: Option<string>,
    size: nat, text: string, json: ErrorBody)

  /** What the catch block inspects of a thrown error. `status` is
      `error.response?.status`. */
  datatype Failure = Failure(message: string, status: Option<nat>, name: string, code: string)

  /** The call either resolved with a response or threw. */
  datatype Transport = Delivered(response: Response) | Thrown(failure: Failure)

  datatype Outcome = Saved(filename: string) | Refused(message: string)

  function KindName(kind: Kind): string
  {
    match kind
    case Pdf => "PDF"
    case Excel => "Excel"
  }

  function Extension(kind: Kind): string
  {
    match kind
    case Pdf => ".pdf"
    case Excel => ".xlsx"
  }

  function ExportFailedText(kind: Kind): string { KindName(kind) + " export mislukt" }
  function InvalidFileText(kind: Kind): string { "Ongeldig " + KindName(kind) + " bestand ontvangen" }
  function DownloadFailedText(kind: Kind): string { "Kon " + KindName(kind) + " niet downloaden" }
  function DownloadedText(kind: Kind): string { KindName(kind) + " succesvol gedownload" }

  const CancelledText := "Download geannuleerd"
  const OfflineText := "Netwerkfout - controleer je internetverbinding"

  /** An error of the page's own making: `new Error(msg)`, without a response. */
  function Raised(msg: string): Failure
  {
    Failure(msg, None, "Error", "")
  }

  /** The message of a non-200 response: the body's `detail`, else its
      `message`, else the generic one; a body that is not a JSON object gives the
      status line instead. */
  function StatusMessage(kind: Kind, r: Response): (msg: string)
    ensures msg != ""
    ensures r.json.JsonValue? && Truthy(r.json.detail) ==> msg == r.json.detail.value
    ensures r.json.JsonValue? && !Truthy(r.json.detail) && Truthy(r.json.message) ==> msg == r.json.message.value
    ensures r.json.JsonValue? && !Truthy(r.json.detail) && !Truthy(r.json.message) ==> msg == ExportFailedText(kind)
    ensures !r.json.JsonValue? ==> msg == "Server error: " + NatToString(r.status) + " " + r.statusText
  {
    match r.json
    case JsonValue(detail, message) => DetailOr(detail, DetailOr(message, ExportFailedText(kind)))
    case _ => "Server error: " + NatToString(r.status) + " " + r.statusText
  }

  /** A message the catch block shows as it is: non-empty and not about the network. */
  predicate Usable(message: string)
  {
    message != "" && !Contains(message, "Network Error")
  }

  /** `error.response?.status` is truthy. */
  predicate HasStatus(e: Failure)
  {
    e.status.Some? && e.status.value != 0
  }

  /** The catch block's chain: the error's own message, else the HTTP status,
      else cancellation, else a network failure, else the generic text. */
  function ErrorMessage(kind: Kind, e: Failure): (msg: string)
    ensures msg != ""
    ensures Usable(e.message) ==> msg == e.message
    ensures !Usable(e.message) && HasStatus(e) ==> msg == "Server fout (" + NatToString(e.status.value) + ")"
    ensures !Usable(e.message) && !HasStatus(e) && e.name == "AbortError" ==> msg == CancelledText
    ensures (!Usable(e.message) && !HasStatus(e) && e.name != "AbortError" && e.code == "ERR_NETWORK") ==>
              msg == OfflineText
    ensures (!Usable(e.message) && !HasStatus(e) && e.name != "AbortError" && e.code != "ERR_NETWORK") ==>
              msg == DownloadFailedText(kind)
  {
    if Usable(e.message) then e.message
    else if HasStatus(e) then "Server fout (" + NatToString(e.status.value) + ")"
    else if e.name == "AbortError" then CancelledText
    else if e.code == "ERR_NETWORK" then OfflineText
    else DownloadFailedText(kind)
  }

  /** The page's own errors reach the toast unchanged unless their text is empty
      or mentions "Network Error"; then the generic text replaces them. */
  lemma RaisedMessageShown(kind: Kind, msg: string)
    ensures ErrorMessage(kind, Raised(msg)) == if Usable(msg) then msg else DownloadFailedText(kind)
  {
  }

  /** axios's own network failure (message "Network Error", code ERR_NETWORK,
      no response) is reported as a network problem. */
  lemma NetworkErrorReported(kind: Kind)
    ensures ErrorMessage(kind, Failure("Network Error", None, "AxiosError", "ERR_NETWORK")) == OfflineText
  {
    assert OccursAt("Network Error", "Network Error", 0);
  }

  /** A response that is too small and of the wrong type to be the file. */
  predicate BlobRejected(kind: Kind, contentType: string, size: nat)
  {
    match kind
    case Pdf => !Contains(contentType, "pdf") && size < 1000
    case Excel => !Contains(contentType, "spreadsheet") && !Contains(contentType, "excel") && size < 1000
  }

  /** A body of 1000 bytes or more is always taken for the file, and so is one
      whose type names the format. */
  lemma BlobAccepted(kind: Kind, contentType: string, size: nat)
    ensures size >= 1000 ==> !BlobRejected(kind, contentType, size)
    ensures kind == Pdf && Contains(contentType, "pdf") ==> !BlobRejected(kind, contentType, size)
    ensures (kind == Excel && (Contains(contentType, "spreadsheet") || Contains(contentType, "excel")))
              ==> !BlobRejected(kind, contentType, size)
    ensures size < 1000 && contentType == "" ==> BlobRejected(kind, contentType, size)
  {
    if size < 1000 && contentType == "" {
      assert !Contains("", "pdf") && !Contains("", "excel") && !Contains("", "spreadsheet");
    }
  }

  function ContentType(r: Response): string
  {
    if r.contentType.Some? then r.contentType.value else ""
  }

  /** Everything from the call to the toast: the name of the saved file, or the
      message shown. */
  function ExportOutcome(kind: Kind, startDate: string, t: Transport): (o: Outcome)
    ensures o.Saved? <==> (t.Delivered? && t.response.status == 200
                           && !BlobRejected(kind, ContentType(t.response), t.response.size))
    ensures o.Saved? ==> o.filename == ExportFilename(kind, startDate, t.response.disposition)
    ensures o.Refused? ==> o.message != ""
    ensures t.Thrown? ==> o == Refused(ErrorMessage(kind, t.failure))
    ensures t.Delivered? && t.response.status != 200 ==>
              o == Refused(ErrorMessage(kind, Raised(StatusMessage(kind, t.response))))
    ensures t.Delivered? && t.response.status == 200 && BlobRejected(kind, ContentType(t.response), t.response.size) ==>
              o == Refused(ErrorMessage(kind, Raised(if t.response.text != "" then t.response.text else InvalidFileText(kind))))
  {
    match t
    case Thrown(e) => Refused(ErrorMessage(kind, e))
    case Delivered(r) =>
      if r.status != 200 then Refused(ErrorMessage(kind, Raised(StatusMessage(kind, r))))
      else if BlobRejected(kind, ContentType(r), r.size) then
        Refused(ErrorMessage(kind, Raised(if r.text != "" then r.text else InvalidFileText(kind))))
      else Saved(ExportFilename(kind, startDate, r.disposition))
  }

  /** A failing status whose body carries a usable `detail` shows that detail. */
  lemma ServerDetailShown(kind: Kind, startDate: string, r: Response)
    requires r.status != 200 && r.json.JsonValue? && r.json.detail.Some?
    requires Usable(r.json.detail.value)
    ensures ExportOutcome(kind, startDate, Delivered(r)) == Refused(r.json.detail.value)
  {
  }

  // ---------------------------------------------------------------------------
  // The file name: `/filename[^;=\n]*=((['"]).*?\2|[^;\n]*)/`

  /** The characters `.` does not match. */
  predicate LineTerminator(c: char)
  {
    c == '\n' || c == '\r' || c == '\U{2028}' || c == '\U{2029}'
  }

  /** The end of the longest run from k of characters outside `stops`. */
  function Scan(s: string, k: nat, stops: set<char>): (j: nat)
    requires k <= |s|
    ensures k <= j <= |s|
    ensures forall t | k <= t < j :: s[t] !in stops
    ensures j < |s| ==> s[j] in stops
    decreases |s| - k
  {
    if k == |s| || s[k] in stops then k else Scan(s, k + 1, stops)
  }

  /** The first group, matched from just after the `=`: a quote, the shortest
      run up to the same quote on the same line, and that quote; failing that,
      everything up to a `;` or a newline. */
  function Group(s: string, k: nat): (g: string)
    requires k <= |s|
  {
    if k < |s| && (s[k] == '\'' || s[k] == '"') then
      var m := Scan(s, k + 1, {s[k], '\n', '\r', '\U{2028}', '\U{2029}'});
      if m < |s| && s[m] == s[k] then s[k..m + 1] else s[k..Scan(s, k, {';', '\n'})]
    else s[k..Scan(s, k, {';', '\n'})]
  }

  /** The regular expression tried at index i. The run `[^;=\n]*` stops at the
      first `;`, `=` or newline, and no shorter run can be followed by `=`, so
      the match exists exactly when that stop is an `=`. */
  function MatchAt(s: string, i: nat): (g: Option<string>)
    requires i <= |s|
    ensures g.Some? ==> i + 8 <= |s| && s[i] == 'f'
  {
    if i + 8 <= |s| && s[i..i + 8] == "filename" then
      var j := Scan(s, i + 8, {';', '=', '\n'});
      if j < |s| && s[j] == '=' then Some(Group(s, j + 1)) else None
    else None
  }

  /** `match`: the group of the leftmost match at or after index i. */
  function FindFilename(s: string, i: nat): Option<string>
    requires i <= |s|
    decreases |s| - i
  {
    match MatchAt(s, i)
    case Some(g) => Some(g)
    case None => if i == |s| then None else FindFilename(s, i + 1)
  }

  predicate NotQuote(c: char)
  {
    c != '\'' && c != '"'
  }

  /** `replace(/['"]/g, '')`. */
  function StripQuotes(s: string): (r: string)
    ensures forall c | c in r :: NotQuote(c)
  {
    Filter(s, NotQuote)
  }

  function DefaultFilename(kind: Kind, startDate: string): string
  {
    "Mandagenstaat_" + startDate[..if |startDate| < 7 then |startDate| else 7] + "_Export" + Extension(kind)
  }

  /** The download's name: the one the Content-Disposition header carries,
      without quotes, or else the default built from the start month. */
  function ExportFilename(kind: Kind, startDate: string, disposition: Option<string>): (name: string)
    ensures !Truthy(disposition) ==> name == DefaultFilename(kind, startDate)
    ensures name != DefaultFilename(kind, startDate) ==> forall c | c in name :: NotQuote(c)
  {
    if Truthy(disposition) then
      match FindFilename(disposition.value, 0)
      case Some(g) => if g != "" then StripQuotes(g) else DefaultFilename(kind, startDate)
      case None => DefaultFilename(kind, startDate)
    else DefaultFilename(kind, startDate)
  }

  /** No match can start at an index that does not hold an `f`. */
  lemma {:induction false} SkipToFilename(s: string, i: nat, j: nat)
    requires i <= j <= |s|
    requires forall t | i <= t < j :: s[t] != 'f'
    ensures FindFilename(s, i) == FindFilename(s, j)
    decreases j - i
  {
    if i < j {
      SkipToFilename(s, i + 1, j);
    }
  }

  const Attachment := "attachment; filename="

  /** A header whose `filename` value is quoted, with any parameters after it. */
  function QuotedHeader(name: string, rest: string): string
  {
    Attachment + "\"" + name + "\"" + rest
  }

  /** A header whose `filename` value is bare, with any parameters after it. */
  function PlainHeader(name: string, rest: string): string
  {
    Attachment + name + rest
  }

  /** The header a server sends for a quoted name: the name comes back exactly,
      for any name without quotes or line breaks (the empty one included),
      whatever follows the closing quote. */
  lemma QuotedFilenameRoundTrip(kind: Kind, startDate: string, name: string, rest: string)
    requires forall c | c in name :: NotQuote(c) && !LineTerminator(c)
    ensures ExportFilename(kind, startDate, Some(QuotedHeader(name, rest))) == name
  {
    var h := QuotedHeader(name, rest);
    QuotedMatch(name, rest);
    SkipToFilename(h, 0, 12);
    assert FindFilename(h, 0) == Some("\"" + name + "\"");
    StripSurrounded("\"", name, "\"");
  }

  /** The regular expression matches at the `filename` of such a header and
      its group is the quoted name, quotes included. */
  lemma QuotedMatch(name: string, rest: string)
    requires forall c | c in name :: NotQuote(c) && !LineTerminator(c)
    ensures |QuotedHeader(name, rest)| >= 12
    ensures forall t | 0 <= t < 12 :: QuotedHeader(name, rest)[t] != 'f'
    ensures MatchAt(QuotedHeader(name, rest), 12) == Some("\"" + name + "\"")
  {
    var s := QuotedHeader(name, rest);
    var m := 22 + |name|;
    assert s[12..20] == "filename" && s[20] == '=' && s[21] == '"';
    assert s[m] == '"';
    forall t | 22 <= t < m ensures s[t] !in {'"', '\n', '\r', '\U{2028}', '\U{2029}'} {
      assert s[t] == name[t - 22] && name[t - 22] in name;
    }
    ScanFrom(s, 22, m, {'"', '\n', '\r', '\U{2028}', '\U{2029}'});
    assert s[21..m + 1] == "\"" + name + "\"";
  }

  /** A name a server can send bare: non-empty, without quotes, `;` or newlines. */
  predicate PlainName(name: string)
  {
    name != "" && forall c | c in name :: NotQuote(c) && c != ';' && c != '\n'
  }

  /** What may follow a bare value: nothing, the next parameter, or a new line. */
  predicate EndsValue(rest: string)
  {
    rest == "" || rest[0] == ';' || rest[0] == '\n'
  }

  /** An unquoted name is taken up to the next `;` or newline, or to the end
      of the header. */
  lemma PlainFilenameRoundTrip(kind: Kind, startDate: string, name: string, rest: string)
    requires PlainName(name) && EndsValue(rest)
    ensures ExportFilename(kind, startDate, Some(PlainHeader(name, rest))) == name
  {
    var h := PlainHeader(name, rest);
    PlainMatch(name, rest);
    SkipToFilename(h, 0, 12);
    assert FindFilename(h, 0) == Some(name);
    FilterAll(name, NotQuote);
    assert StripQuotes(name) == name;
  }

  /** The regular expression matches at the `filename` of such a header and
      its group is the name. */
  lemma PlainMatch(name: string, rest: string)
    requires PlainName(name) && EndsValue(rest)
    ensures |PlainHeader(name, rest)| >= 12
    ensures forall t | 0 <= t < 12 :: PlainHeader(name, rest)[t] != 'f'
    ensures MatchAt(PlainHeader(name, rest), 12) == Some(name)
  {
    var s := PlainHeader(name, rest);
    var e := 21 + |name|;
    assert name[0] in name;
    assert s[12..20] == "filename" && s[20] == '=' && s[21] == name[0];
    forall t | 21 <= t < e ensures s[t] !in {';', '\n'} {
      assert s[t] == name[t - 21] && name[t - 21] in name;
    }
    if e < |s| {
      assert s[e] == rest[0];
    }
    ScanFrom(s, 21, e, {';', '\n'});
    ScanFrom(s, 20, 20, {';', '=', '\n'});
    assert Group(s, 21) == s[21..e];
    assert s[21..e] == name;
  }

  /** Scan stops at the first stop character. */
  lemma ScanFrom(s: string, k: nat, j: nat, stops: set<char>)
    requires k <= j <= |s|
    requires forall t | k <= t < j :: s[t] !in stops
    requires j < |s| ==> s[j] in stops
    ensures Scan(s, k, stops) == j
  {
  }

  lemma StripSurrounded(q: string, name: string, r: string)
    requires forall c | c in q + r :: !NotQuote(c)
    requires forall c | c in name :: NotQuote(c)
    ensures StripQuotes(q + name + r) == name
  {
    FilterAppend(q + name, r, NotQuote);
    FilterAppend(q, name, NotQuote);
    FilterNone(q, NotQuote);
    FilterNone(r, NotQuote);
    FilterAll(name, NotQuote);
    assert [] + name + [] == name;
  }

  // ---------------------------------------------------------------------------
  // Week numbers

  /** The day numbers of the Monday and the Sunday the week shortcut picks for
      week w of year y: the week (Monday to Sunday) holding the day 7*(w-1)
      days after 1 January, where a Sunday counts as the end of its week. */
  function WeekRange(y: int, w: int): (r: (int, int))
    ensures Weekday(r.0) == 1 && Weekday(r.1) == 0 && r.1 == r.0 + 6
    ensures r.0 <= Jan1(y) + 7 * (w - 1) <= r.1
  {
    var base := Jan1(y) + 7 * (w - 1);
    var dow := Weekday(base);
    var start := base + (if dow == 0 then -6 else 1 - dow);
    MondayOf(base);
    (start, start + 6)
  }

  lemma MondayOf(base: int)
    ensures var dow := Weekday(base);
            var start := base + (if dow == 0 then -6 else 1 - dow);
            Weekday(start) == 1 && Weekday(start + 6) == 0
  {
    var q := (base + 4) / 7;
    assert base + 4 == 7 * q + Weekday(base);
    if Weekday(base) == 0 {
      assert base - 6 + 4 == 7 * (q - 1) + 1;
      assert base + 4 == 7 * q;
    } else {
      assert base + 1 - Weekday(base) + 4 == 7 * q + 1;
      assert base + 1 - Weekday(base) + 6 + 4 == 7 * (q + 1);
    }
  }

  /** Successive week numbers give successive weeks, without gap or overlap. */
  lemma WeeksFollowEachOther(y: int, w: int)
    ensures WeekRange(y, w + 1).0 == WeekRange(y, w).1 + 1
  {
    var base := Jan1(y) + 7 * (w - 1);
    assert Jan1(y) + 7 * (w + 1 - 1) == base + 7;
    assert Weekday(base + 7) == Weekday(base);
  }

  /** The two dates the shortcut fills in, as calendar dates. */
  function WeekDates(y: int, w: int): (r: (string, string))
    ensures exists a: Date, b: Date | ValidDate(a) && ValidDate(b) ::
              r == (IsoDate(a), IsoDate(b)) && Weekday(DayNumber(a)) == 1 && DayNumber(b) == DayNumber(a) + 6
              && DayNumber(a) <= Jan1(y) + 7 * (w - 1) <= DayNumber(b)
  {
    var range := WeekRange(y, w);
    var a, b := DateOfDay(range.0), DateOfDay(range.1);
    assert DayNumber(a) == range.0 && DayNumber(b) == range.1;
    (IsoDate(a), IsoDate(b))
  }

  /** The day number `toISOString()` reports for a moment `minute` minutes into
      local day `day`, in a time zone `offset` minutes ahead of UTC. */
  function UtcDay(day: int, minute: int, offset: int): int
  {
    day + (minute - offset) / 1440
  }

  /** The dates as the shortcut actually stores them: it builds local midnights
      (one in the morning after the switch to summer time) and writes them with
      `toISOString()`, which gives the UTC date. The zone is a fixed offset here;
      a zone whose offset on 1 January differs from the week's is not covered. */
  function WeekDatesAsWritten(y: int, w: int, minute: int, offset: int): (r: (string, string))
    ensures offset <= minute < offset + 1440 ==> r == WeekDates(y, w)
    ensures 0 <= minute < offset <= minute + 1440 ==>
              r == (IsoDate(DateOfDay(WeekRange(y, w).0 - 1)), IsoDate(DateOfDay(WeekRange(y, w).1 - 1)))
  {
    var k := UtcDay(0, minute, offset);
    UtcShift(minute, offset);
    ShiftedCases(y, w, k);
    ShiftedDates(y, w, k)
  }

  /** The week's two dates, each moved by k days. */
  function ShiftedDates(y: int, w: int, k: int): (string, string)
  {
    var range := WeekRange(y, w);
    (IsoDate(DateOfDay(range.0 + k)), IsoDate(DateOfDay(range.1 + k)))
  }

  lemma ShiftedCases(y: int, w: int, k: int)
    ensures k == 0 ==> ShiftedDates(y, w, k) == WeekDates(y, w)
    ensures k == -1 ==>
              ShiftedDates(y, w, k) == (IsoDate(DateOfDay(WeekRange(y, w).0 - 1)), IsoDate(DateOfDay(WeekRange(y, w).1 - 1)))
  {
  }

  /** East of UTC (Central European time, for one) both stored dates fall a day
      early: the "Monday" is the Sunday before and the "Sunday" a Saturday. */
  lemma WeekShiftsEastOfUtc(y: int, w: int, minute: int, offset: int)
    requires 0 <= minute < offset <= minute + 1440
    ensures UtcDay(WeekRange(y, w).0, minute, offset) == WeekRange(y, w).0 - 1
    ensures UtcDay(WeekRange(y, w).1, minute, offset) == WeekRange(y, w).1 - 1
    ensures Weekday(WeekRange(y, w).0 - 1) == 0 && Weekday(WeekRange(y, w).1 - 1) == 6
    ensures WeekDatesAsWritten(y, w, minute, offset).0 == IsoDate(DateOfDay(WeekRange(y, w).0 - 1))
    ensures WeekDatesAsWritten(y, w, minute, offset).1 == IsoDate(DateOfDay(WeekRange(y, w).1 - 1))
  {
    var r := WeekRange(y, w);
    OneDayEarlier(minute, offset);
    DayBefore(r.0);
    DayBefore(r.1);
  }

  /** How many days `toISOString()` moves a local time back or forth. */
  lemma UtcShift(minute: int, offset: int)
    ensures offset <= minute < offset + 1440 ==> (minute - offset) / 1440 == 0
    ensures 0 <= minute < offset <= minute + 1440 ==> (minute - offset) / 1440 == -1
  {
    if 0 <= minute < offset <= minute + 1440 {
      OneDayEarlier(minute, offset);
    }
  }

  lemma OneDayEarlier(minute: int, offset: int)
    requires 0 <= minute < offset <= minute + 1440
    ensures (minute - offset) / 1440 == -1
  {
  }

  lemma DayBefore(n: int)
    ensures Weekday(n - 1) == (Weekday(n) + 6) % 7
  {
    var q := (n + 4) / 7;
    assert n + 4 == 7 * q + Weekday(n);
    if Weekday(n) == 0 {
      assert n - 1 + 4 == 7 * (q - 1) + 6;
    } else {
      assert n - 1 + 4 == 7 * q + (Weekday(n) - 1);
    }
  }

  /** The week numbers the select offers, as parseInt reads them. */
  predicate WeekChoice(weekNum: string)
  {
    weekNum == "" || weekNum == "none" || (weekNum != "" && AllDigits(weekNum))
  }

  // ---------------------------------------------------------------------------
  // The page

  class Page {
    var filters: Filters
    var report: Option<Report>
    var loading: bool
    var notices: seq<Notice>
    var requests: seq<Request>
    var downloads: seq<string>

    constructor ()
      ensures filters == EmptyFilters && report.None? && !loading
      ensures notices == [] && requests == [] && downloads == []
    {
      filters := EmptyFilters;
      report := None;
      loading := false;
      notices := [];
      requests := [];
      downloads := [];
    }

    /** The week select: "none" clears the week and the period; a week number
        fills in its Monday and Sunday. The year is the current one. */
    method HandleWeekNumberChange(weekNum: string, currentYear: int)
      requires WeekChoice(weekNum)
      modifies this`filters
      ensures weekNum == "" || weekNum == "none" ==>
                filters == old(filters).(weekNumber := "", startDate := "", endDate := "")
      ensures weekNum != "" && weekNum != "none" ==>
                filters == old(filters).(weekNumber := weekNum,
                                         startDate := WeekDates(currentYear, DecimalValue(weekNum)).0,
                                         endDate := WeekDates(currentYear, DecimalValue(weekNum)).1)
    {
      if weekNum == "" || weekNum == "none" {
        filters := filters.(weekNumber := "", startDate := "", endDate := "");
      } else {
        var dates := WeekDates(currentYear, DecimalValue(weekNum));
        filters := filters.(weekNumber := weekNum, startDate := dates.0, endDate := dates.1);
      }
    }

    /** Typing a start date forgets the chosen week. */
    method SetStartDate(value: string)
      modifies this`filters
      ensures filters == old(filters).(startDate := value, weekNumber := "")
    {
      filters := filters.(startDate := value, weekNumber := "");
    }

    /** Typing an end date forgets the chosen week. */
    method SetEndDate(value: string)
      modifies this`filters
      ensures filters == old(filters).(endDate := value, weekNumber := "")
    {
      filters := filters.(endDate := value, weekNumber := "");
    }

    method SetProject(value: string)
      modifies this`filters
      ensures filters == old(filters).(projectId := value)
    {
      filters := filters.(projectId := value);
    }

    /** Choosing "Alle medewerkers" stores "all", not the empty string. */
    method SetUser(value: string)
      modifies this`filters
      ensures filters == old(filters).(userId := value)
    {
      filters := filters.(userId := value);
    }

    /** Generating: refused without a period and a project; otherwise one request,
        and the statement replaces the old one only when the call succeeds. */
    method HandleGenerate(reply: Reply<Report>)
      modifies this`report, this`loading, this`notices, this`requests
      ensures !CanGenerate(filters) ==>
                requests == old(requests) && report == old(report) && loading == old(loading)
                && notices == old(notices) + [Error("Vul minimaal periode en project in")]
      ensures CanGenerate(filters) ==> requests == old(requests) + [Generate(GenerateParams(filters))] && !loading
      ensures CanGenerate(filters) && reply.Ok? ==>
                report == Some(reply.data) && notices == old(notices) + [Success("Mandagenstaat gegenereerd")]
      ensures CanGenerate(filters) && reply.Failed? ==>
                report == old(report)
                && notices == old(notices) + [Error(DetailOr(reply.detail, "Kon mandagenstaat niet genereren"))]
    {
      if !CanGenerate(filters) {
        notices := notices + [Error("Vul minimaal periode en project in")];
        return;
      }
      loading := true;
      requests := requests + [Generate(GenerateParams(filters))];
      if reply.Ok? {
        report := Some(reply.data);
        notices := notices + [Success("Mandagenstaat gegenereerd")];
      } else {
        notices := notices + [Error(DetailOr(reply.detail, "Kon mandagenstaat niet genereren"))];
      }
      loading := false;
    }

    /** Exporting: refused before any statement exists; otherwise one request,
        then either a saved file and a success toast, or one error toast. */
    method HandleExport(kind: Kind, t: Transport)
      modifies this`loading, this`notices, this`requests, this`downloads
      ensures report.None? ==>
                requests == old(requests) && downloads == old(downloads) && loading == old(loading)
                && notices == old(notices) + [Error("Genereer eerst een mandagenstaat")]
      ensures report.Some? ==> requests == old(requests) + [Export(kind, ExportParams(filters))] && !loading
      ensures report.Some? && ExportOutcome(kind, filters.startDate, t).Saved? ==>
                downloads == old(downloads) + [ExportOutcome(kind, filters.startDate, t).filename]
                && notices == old(notices) + [Success(DownloadedText(kind))]
      ensures report.Some? && ExportOutcome(kind, filters.startDate, t).Refused? ==>
                downloads == old(downloads)
                && notices == old(notices) + [Error(ExportOutcome(kind, filters.startDate, t).message)]
    {
      if report.None? {
        notices := notices + [Error("Genereer eerst een mandagenstaat")];
        return;
      }
      loading := true;
      requests := requests + [Export(kind, ExportParams(filters))];
      var outcome := ExportOutcome(kind, filters.startDate, t);
      if outcome.Saved? {
        downloads := downloads + [outcome.filename];
        notices := notices + [Success(DownloadedText(kind))];
      } else {
        notices := notices + [Error(outcome.message)];
      }
      loading := false;
    }
  }
}
