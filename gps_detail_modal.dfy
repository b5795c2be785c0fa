/** The admin's GPS detail dialog for one employee: the mismatch toggle, the
    map's centre and markers, and the table of clock-in positions with their
    match badge. The dialog holds one flag; everything else is computed from
    the entries and the project it is given. */
module GpsDetailModal {

  import opened Common
  import opened Lists

  /** `project_match`: null, true, false, or absent (or any other value). */
  datatype Match = MatchNull | MatchTrue | MatchFalse | MatchOther

  /** One clock-in as the overview reports it. The coordinates are
      `clock_in_location?.latitude` and `?.longitude`, None when the location or
      the field is missing. */
  datatype GpsEntry = GpsEntry(
    id: string, projectName: string,
    latitude: Option<real>, longitude: Option<real>,
    distance: Option<real>, projectMatch: Match)

  datatype ProjectSite = ProjectSite(name: string, latitude: Option<real>, longitude: Option<real>)

  /** A marker on the map: green for a matching clock-in, red otherwise. */
  datatype Marker = Marker(latitude: real, longitude: real, green: bool)

  /** The table's match cell: "-", "JA", or "NEE" with a warning sign. */
  datatype Badge = Dash | Ja | Nee

  /** One row of the table: coordinates or "-", distance or "-", the badge and
      whether the row is tinted red. */
  datatype Row = Row(coordinates: Option<(real, real)>, distance: Option<real>, badge: Badge, highlighted: bool)

  datatype View = View(
    shown: seq<GpsEntry>, total: nat,
    centre: (real, real), projectMarker: bool,
    markers: seq<Marker>, rows: seq<Row>)

  const DefaultLatitude: real := 52.0907
  const DefaultLongitude: real := 5.1214

  predicate IsMismatch(e: GpsEntry)
  {
    e.projectMatch == MatchFalse
  }

  /** The entries listed: with the toggle on, exactly the clock-ins whose match
      is `false`, in their order; with it off, all of them. */
  function Shown(entries: seq<GpsEntry>, onlyMismatches: bool): (r: seq<GpsEntry>)
    ensures |r| <= |entries|
    ensures !onlyMismatches ==> r == entries
    ensures onlyMismatches ==> forall e :: e in r <==> e in entries && IsMismatch(e)
  {
    if onlyMismatches then Filter(entries, IsMismatch) else entries
  }

  /** The toggle hides only entries, never reorders them: the shown list is the
      full list with the other entries taken out, and each mismatch keeps its
      multiplicity. */
  lemma ShownKeepsMismatches(entries: seq<GpsEntry>, e: GpsEntry)
    ensures IsMismatch(e) ==> multiset(Shown(entries, true))[e] == multiset(entries)[e]
    ensures !IsMismatch(e) ==> multiset(Shown(entries, true))[e] == 0
  {
    FilterCount(entries, IsMismatch, e);
  }

  /** `a || b || fallback` on coordinates: the first truthy one. */
  function Coordinate(first: Option<real>, second: Option<real>, fallback: real): (c: real)
    ensures TruthyReal(first) ==> c == first.value
    ensures !TruthyReal(first) && TruthyReal(second) ==> c == second.value
    ensures !TruthyReal(first) && !TruthyReal(second) ==> c == fallback
  {
    if TruthyReal(first) then first.value
    else if TruthyReal(second) then second.value
    else fallback
  }

  function ProjectLatitude(project: Option<ProjectSite>): Option<real>
  {
    if project.Some? then project.value.latitude else None
  }

  function ProjectLongitude(project: Option<ProjectSite>): Option<real>
  {
    if project.Some? then project.value.longitude else None
  }

  /** The map's centre, chosen per coordinate: the project's, else the first
      entry's (of all entries, whatever the toggle), else a fixed point in
      Utrecht. A coordinate of 0 counts as missing. */
  function Centre(project: Option<ProjectSite>, entries: seq<GpsEntry>): (c: (real, real))
    requires entries != []
    ensures c.0 != 0.0 && c.1 != 0.0
    ensures TruthyReal(ProjectLatitude(project)) ==> c.0 == ProjectLatitude(project).value
    ensures TruthyReal(ProjectLongitude(project)) ==> c.1 == ProjectLongitude(project).value
    ensures !TruthyReal(ProjectLatitude(project)) && TruthyReal(entries[0].latitude) ==> c.0 == entries[0].latitude.value
    ensures !TruthyReal(ProjectLongitude(project)) && TruthyReal(entries[0].longitude) ==> c.1 == entries[0].longitude.value
    ensures !TruthyReal(ProjectLatitude(project)) && !TruthyReal(entries[0].latitude) ==> c.0 == DefaultLatitude
    ensures !TruthyReal(ProjectLongitude(project)) && !TruthyReal(entries[0].longitude) ==> c.1 == DefaultLongitude
  {
    (Coordinate(ProjectLatitude(project), entries[0].latitude, DefaultLatitude),
     Coordinate(ProjectLongitude(project), entries[0].longitude, DefaultLongitude))
  }

  /** The centre mixes sources: a project with only a latitude takes its
      longitude from the first clock-in. */
  lemma CentreMixesSources(name: string, lat: real, e: GpsEntry, rest: seq<GpsEntry>)
    requires lat != 0.0 && TruthyReal(e.longitude)
    ensures Centre(Some(ProjectSite(name, Some(lat), None)), [e] + rest) == (lat, e.longitude.value)
  {
  }

  /** Both coordinates present and non-zero. */
  predicate Located(latitude: Option<real>, longitude: Option<real>)
  {
    TruthyReal(latitude) && TruthyReal(longitude)
  }

  predicate HasLocation(e: GpsEntry)
  {
    Located(e.latitude, e.longitude)
  }

  /** The marker an entry gets, if any. */
  function MarkerOf(e: GpsEntry): (m: Option<Marker>)
    ensures m.Some? <==> Located(e.latitude, e.longitude)
    ensures m.Some? ==> (m.value.green <==> e.projectMatch == MatchTrue)
  {
    if Located(e.latitude, e.longitude) then
      Some(Marker(e.latitude.value, e.longitude.value, e.projectMatch == MatchTrue))
    else None
  }

  /** The markers of the listed entries, in order, skipping the unlocated. */
  function Markers(es: seq<GpsEntry>): (ms: seq<Marker>)
    ensures |ms| <= |es|
    ensures forall m | m in ms :: exists e | e in es :: MarkerOf(e) == Some(m)
    ensures forall e | e in es && Located(e.latitude, e.longitude) :: MarkerOf(e).value in ms
  {
    if es == [] then []
    else
      var rest := Markers(es[1..]);
      assert forall e | e in es[1..] :: e in es;
      assert forall e | e in es :: e == es[0] || e in es[1..];
      match MarkerOf(es[0])
      case Some(m) => [m] + rest
      case None => rest
  }

  /** Entries without a location add no marker; each located entry adds one. */
  lemma {:induction false} MarkerCount(es: seq<GpsEntry>)
    ensures |Markers(es)| == |Filter(es, HasLocation)|
  {
    if es != [] {
      MarkerCount(es[1..]);
    }
  }

  /** The badge: "-" for null, "JA" for true, "NEE" for everything else. */
  function BadgeOf(m: Match): (b: Badge)
    ensures b == Dash <==> m == MatchNull
    ensures b == Ja <==> m == MatchTrue
  {
    match m
    case MatchNull => Dash
    case MatchTrue => Ja
    case _ => Nee
  }

  function RowOf(e: GpsEntry): (r: Row)
    ensures r.highlighted <==> r.badge != Ja
    ensures r.coordinates.Some? <==> Located(e.latitude, e.longitude)
    ensures r.distance == e.distance
  {
    Row(if Located(e.latitude, e.longitude) then Some((e.latitude.value, e.longitude.value)) else None,
        e.distance, BadgeOf(e.projectMatch), e.projectMatch != MatchTrue)
  }

  /** A row whose badge reads "NEE" can still be hidden by "show only
      mismatches (NEE)": the toggle tests for `false`, the badge for
      "not null and not true". */
  lemma NeeRowMayBeHidden(e: GpsEntry)
    requires e.projectMatch == MatchOther
    ensures RowOf(e).badge == Nee && Shown([e], true) == []
  {
    assert [e][1..] == [];
  }

  /** Everything the toggle shows reads "NEE" and is tinted. */
  lemma ShownMismatchesReadNee(entries: seq<GpsEntry>)
    ensures forall e | e in Shown(entries, true) :: RowOf(e).badge == Nee && RowOf(e).highlighted
  {
  }

  /** The dialog: nothing without entries; otherwise the counts, the map and
      the table for the listed entries. */
  function Render(entries: Option<seq<GpsEntry>>, project: Option<ProjectSite>, onlyMismatches: bool): (v: Option<View>)
    ensures v.None? <==> entries.None? || entries.value == []
    ensures v.Some? ==> v.value.total == |entries.value| && |v.value.shown| <= v.value.total
    ensures v.Some? ==> v.value.shown == Shown(entries.value, onlyMismatches)
    ensures v.Some? ==> |v.value.rows| == |v.value.shown|
                         && forall i | 0 <= i < |v.value.rows| :: v.value.rows[i] == RowOf(v.value.shown[i])
    ensures v.Some? ==> (v.value.projectMarker <==> Located(ProjectLatitude(project), ProjectLongitude(project)))
  {
    if entries.None? || entries.value == [] then None
    else
      var es := entries.value;
      var shown := Shown(es, onlyMismatches);
      Some(View(shown, |es|, Centre(project, es),
                Located(ProjectLatitude(project), ProjectLongitude(project)),
                Markers(shown), Map(shown, RowOf)))
  }
}
