/**
  The scheduler's watchdog: expectations, start acknowledgements, incidents and
  their archive, and how each maintenance step changes the stored records.
 */
module Watchdog {
  import opened Common
  import opened Calendar
  import opened Schedule
  import opened Ordering

  const START_ACK_GRACE := 180 * SECOND

  /** The first and the last instant of the host's calendar, years 1 to 9999. */
  const EARLIEST := DAY
  const LATEST := 3_652_060 * DAY - 1

  predicate InRange(us: int) {
    EARLIEST <= us <= LATEST
  }

  /** They are those of the dates themselves. */
  lemma CalendarEnds(first: Date, last: Date)
    requires first == Date(1, 1, 1) && last == Date(9999, 12, 31)
    ensures Calendar.Valid(first) && EARLIEST == Ordinal(first) * DAY
    ensures Calendar.Valid(last) && LATEST == Ordinal(last) * DAY + DAY - 1
  {
    hide Ordinal, DaysBeforeYear, DaysBeforeMonth, DaysInMonth, IsLeap, Calendar.Valid;
    YearEnds(first, last);
    YearCounts();
  }

  lemma YearCounts()
    ensures DaysBeforeYear(1) == 0 && DaysBeforeYear(10_000) == 3_652_059
  {
  }

  lemma YearEnds(first: Date, last: Date)
    requires first.month == 1 && first.day == 1 && last.month == 12 && last.day == 31
    ensures Calendar.Valid(first) && Ordinal(first) == DaysBeforeYear(first.year) + 1
    ensures Calendar.Valid(last) && Ordinal(last) == DaysBeforeYear(last.year + 1)
  {
    MonthTable(first.year);
    MonthTable(last.year);
    YearLength(last.year);
    hide DaysBeforeMonth, DaysBeforeYear;
  }

  /** A start acknowledgement as found on disk; nesting can be too deep for the parser. */
  datatype AckFile =
    | NoFile | Unreadable | TooNested
    | AckPayload(schemaVersion: int, status: string, runId: string, scheduledFor: Time, acknowledgedAt: Time)

  datatype Verdict =
    | SCHEDULED_RUN_MISSED | START_ACK_PENDING | START_ACK_INVALID | START_ACK_RUN_ID_MISMATCH | START_ACK_SCHEDULE_MISMATCH
    | START_ACK_LATE | START_ACK_VALID | SCHEDULER_EXPECTATION_INVALID

  /**
    A stored file, by how far it can be read: not decodable (bytes that are not text, or
    a number too long to convert), not JSON (or not to be opened), nested too deep for
    the parser, JSON that is not an object, or a record.
   */
  datatype Stored<+T> = Undecodable | NotJson | TooDeep | NotObject | Record(value: T)

  /** An expectation; `None` is a missing or unusable field, `zone` the UTC offset of its time. */
  datatype Manifest = Manifest(schemaVersion: int, status: string, runId: Option<string>, scheduledFor: Option<Time>, zone: int)

  datatype Incident = Incident(runId: Option<string>, detectedAt: Option<Time>, verdict: Verdict, resolution: Option<string>)

  type ManifestFile = Stored<Manifest>
  type IncidentFile = Stored<Incident>

  const EXPECTATION_FILE := ".expected.json"
  const ACK_FILE := ".start.json"
  const INCIDENT_FILE := ".scheduler-incident.json"

  /** Which file names the host can look up, and which it can write. */
  datatype Disk = Disk(opens: string -> bool, writes: string -> bool)

  /** What escapes the scripts' error handling and stops them. */
  datatype HostError = VALUE_ERROR | RECURSION_ERROR | ATTRIBUTE_ERROR | OVERFLOW_ERROR | FILE_NAME_REFUSED

  const EXPECTED := "EXPECTED"
  const RETIRED := "RETIRED_INCIDENT_RETAINED"
  const RESOLVED := "RESOLVED_ROOT_CAUSE_DOCUMENTED"

  // -------------------------------------------------------- acknowledgements

  predicate IdCharacter(c: char) {
    'a' <= c <= 'z' || 'A' <= c <= 'Z' || IsDigit(c) || c == '-' || c == '_'
  }

  predicate ValidRunId(id: string) {
    id != "" && forall i :: 0 <= i < |id| ==> IdCharacter(id[i])
  }

  function AckFor(runId: string, scheduledFor: int, acknowledgedAt: int): AckFile {
    AckPayload(1, "STARTED", runId, Aware(scheduledFor), Aware(acknowledgedAt))
  }

  /**
    The verdict on one acknowledgement, failing closed. Without one the deadline is
    computed in the expectation's own zone, with one both times are taken to UTC: each
    fails beyond the host's calendar.
   */
  function EvaluateStartAck(ack: AckFile, scheduledFor: int, zone: int, checkedAt: int, grace: int, runId: string)
    : Result<Verdict, HostError>
  {
    match ack
    case NoFile =>
      if LATEST < scheduledFor + zone + grace then Failure(OVERFLOW_ERROR)
      else Success(if scheduledFor + grace < checkedAt then SCHEDULED_RUN_MISSED else START_ACK_PENDING)
    case Unreadable => Success(START_ACK_INVALID)
    case TooNested => Failure(RECURSION_ERROR)
    case AckPayload(schemaVersion, status, id, recorded, acknowledged) =>
      if acknowledged.Naive? || recorded.Naive? || schemaVersion != 1 || status != "STARTED" then Success(START_ACK_INVALID)
      else if id != runId then Success(START_ACK_RUN_ID_MISMATCH)
      else if !InRange(recorded.us) || !InRange(scheduledFor) then Failure(OVERFLOW_ERROR)
      else if recorded.us != scheduledFor then Success(START_ACK_SCHEDULE_MISMATCH)
      else if grace < acknowledged.us - scheduledFor then Success(START_ACK_LATE)
      else Success(START_ACK_VALID)
  }

  predicate Alarming(v: Verdict) {
    v != START_ACK_VALID && v != START_ACK_PENDING
  }

  // ---------------------------------------------------------- specification

  /** All stored files, by the part of their names in front of the suffix, and the disk they are on. */
  datatype World = World(
    expectations: map<string, ManifestFile>, acks: map<string, AckFile>,
    incidents: map<string, IncidentFile>, archive: map<string, IncidentFile>, disk: Disk)

  function AckOf(acks: map<string, AckFile>, id: string): AckFile {
    if id in acks then acks[id] else NoFile
  }

  /** The files that halt every maintenance script: no script expects them to fail the way they do. */
  ghost function Garbled<T>(files: map<string, Stored<T>>): set<string> {
    set key | key in files && (files[key].Undecodable? || files[key].TooDeep?)
  }

  function ReadError<T>(f: Stored<T>): HostError {
    if f.TooDeep? then RECURSION_ERROR else VALUE_ERROR
  }

  /** A manifest that the scan can act on. */
  predicate Usable(f: ManifestFile) {
    f.Record? && f.value.schemaVersion == 1 && f.value.status == EXPECTED && f.value.runId.Some?
    && f.value.scheduledFor.Some? && f.value.scheduledFor.value.Aware?
  }

  predicate IsRetired(f: ManifestFile) {
    f.Record? && f.value.schemaVersion == 1 && f.value.status == RETIRED
  }

  /** The name an expectation's incident is filed under. */
  function FiledAs(f: ManifestFile, key: string): string {
    if Usable(f) then f.value.runId.value else key
  }

  function NewIncident(id: string, checkedAt: int, verdict: Verdict): IncidentFile {
    Record(Incident(Some(id), Some(Aware(checkedAt)), verdict, None))
  }

  /** The host refuses the incident's file name. */
  predicate FilingFails(w: World, id: string) {
    !w.disk.opens(id + INCIDENT_FILE) || (id !in w.incidents && !w.disk.writes(id + INCIDENT_FILE))
  }

  /** The check of one run: its verdict, filed if it is alarming, or what stops it. */
  function Checked(w: World, id: string, scheduledFor: int, zone: int, checkedAt: int, grace: int): Result<Verdict, HostError> {
    if !w.disk.opens(id + ACK_FILE) then Failure(FILE_NAME_REFUSED)
    else
      var v := EvaluateStartAck(AckOf(w.acks, id), scheduledFor, zone, checkedAt, grace, id);
      if v.Success? && Alarming(v.value) && FilingFails(w, id) then Failure(FILE_NAME_REFUSED) else v
  }

  /** The check of the run a usable expectation names. */
  function VerdictOn(w: World, f: ManifestFile, checkedAt: int, grace: int): Result<Verdict, HostError>
    requires Usable(f)
  {
    Checked(w, f.value.runId.value, f.value.scheduledFor.value.us, f.value.zone, checkedAt, grace)
  }

  /** What stops a scan at one expectation, if anything. */
  function Halt(w: World, key: string, checkedAt: int, grace: int): Option<HostError>
    requires key in w.expectations
  {
    var f := w.expectations[key];
    if f.NotObject? then Some(ATTRIBUTE_ERROR)
    else if f.TooDeep? then Some(RECURSION_ERROR)
    else if IsRetired(f) then None
    else if !Usable(f) then if FilingFails(w, key) then Some(FILE_NAME_REFUSED) else None
    else
      var verdict := VerdictOn(w, f, checkedAt, grace);
      if verdict.Failure? then Some(verdict.error) else None
  }

  /** The expectations that stop a scan. */
  ghost function Halting(w: World, checkedAt: int, grace: int): set<string> {
    set key | key in w.expectations && Halt(w, key, checkedAt, grace).Some?
  }

  /** The incident one scanned expectation calls for; the scan does not get past one that stops it. */
  function Flagged(w: World, key: string, checkedAt: int, grace: int): Option<(string, IncidentFile)>
    requires key in w.expectations
  {
    var f := w.expectations[key];
    if Halt(w, key, checkedAt, grace).Some? || IsRetired(f) then None
    else if !Usable(f) then Some((key, NewIncident(key, checkedAt, SCHEDULER_EXPECTATION_INVALID)))
    else
      var verdict := VerdictOn(w, f, checkedAt, grace).value;
      if Alarming(verdict) then Some((FiledAs(f, key), NewIncident(FiledAs(f, key), checkedAt, verdict))) else None
  }

  function File(incidents: map<string, IncidentFile>, flagged: Option<(string, IncidentFile)>): map<string, IncidentFile> {
    if flagged.None? || flagged.value.0 in incidents then incidents else incidents[flagged.value.0 := flagged.value.1]
  }

  /** The incidents after scanning a listing of expectations, in order. */
  function Scanned(w: World, listing: seq<string>, checkedAt: int, grace: int): map<string, IncidentFile>
    requires forall key :: key in listing ==> key in w.expectations
  {
    if listing == [] then w.incidents
    else File(Scanned(w, listing[..|listing| - 1], checkedAt, grace), Flagged(w, listing[|listing| - 1], checkedAt, grace))
  }

  /** The expectations a scan works through, in order. */
  ghost function Scannable(w: World, checkedAt: int, grace: int): (r: seq<string>)
    ensures forall key :: key in r <==> Reached(w.expectations.Keys, Halting(w, checkedAt, grace), EXPECTATION_FILE, key)
    ensures forall key :: key in r ==> key in w.expectations
  {
    FilesIn(ReachedKeys(w.expectations.Keys, Halting(w, checkedAt, grace), EXPECTATION_FILE), EXPECTATION_FILE)
  }

  predicate Resolved(f: IncidentFile) {
    f.Record? && f.value.resolution.Some? && !Blank(f.value.resolution.value)
  }

  /** The session's calendar day of a timestamp, from the host's zone tables; `None` is beyond the host's calendar. */
  type DayOf = Time -> Option<int>

  predicate Retirable(f: ManifestFile, cutoff: int, dayOf: DayOf) {
    f.Record? && f.value.status == EXPECTED && f.value.scheduledFor.Some? && dayOf(f.value.scheduledFor.value).Some?
    && dayOf(f.value.scheduledFor.value).value < cutoff
  }

  function RetireOne(f: ManifestFile, cutoff: int, dayOf: DayOf): ManifestFile {
    if Retirable(f, cutoff, dayOf) then Record(f.value.(status := RETIRED)) else f
  }

  /** The expectations that stop the retiring script: also an active one whose day cannot be computed. */
  ghost function RetireHalting(expectations: map<string, ManifestFile>, dayOf: DayOf): set<string> {
    Garbled(expectations) + set key | key in expectations && Undatable(expectations[key], dayOf)
  }

  predicate Undatable(f: ManifestFile, dayOf: DayOf) {
    f.Record? && f.value.status == EXPECTED && f.value.scheduledFor.Some? && dayOf(f.value.scheduledFor.value).None?
  }

  ghost predicate RetireReached(w: World, dayOf: DayOf, key: string) {
    Reached(w.expectations.Keys, RetireHalting(w.expectations, dayOf), EXPECTATION_FILE, key)
  }

  ghost function AfterRetire(w: World, cutoff: int, dayOf: DayOf): World {
    w.(expectations := map key | key in w.expectations ::
         if RetireReached(w, dayOf, key) then RetireOne(w.expectations[key], cutoff, dayOf) else w.expectations[key])
  }

  /** The first dash-separated token of a run id that is a date stamp, as a day. */
  function StampedDay(id: string): Option<int> {
    var token := FirstStamp(id, 0, 0);
    if token.None? then None
    else
      var s := token.value;
      var d := Date(Number(s[..4]), Number(s[4..6]), Number(s[6..]));
      if Calendar.Valid(d) && 1 <= d.year then Some(Ordinal(d)) else None
  }

  predicate IsStamp(s: string) {
    |s| == 8 && AllDigits(s)
  }

  /** The first stamp among the tokens of `id` from position `i` on, the current token having begun at `start`. */
  function FirstStamp(id: string, start: nat, i: nat): (r: Option<string>)
    requires start <= i <= |id|
    ensures r.Some? ==> IsStamp(r.value)
    decreases |id| - i
  {
    if i == |id| || id[i] == '-' then
      if IsStamp(id[start..i]) then Some(id[start..i])
      else if i == |id| then None
      else FirstStamp(id, i + 1, i + 1)
    else FirstStamp(id, start, i + 1)
  }

  /** The day an incident belongs to: the one in its run id, else the one it was detected on. */
  function IncidentDay(i: Incident, dayOf: DayOf): Option<int> {
    if i.detectedAt.None? || dayOf(i.detectedAt.value).None? then None
    else
      var stamped := if i.runId.Some? then StampedDay(i.runId.value) else None;
      if stamped.Some? then stamped else dayOf(i.detectedAt.value)
  }

  predicate Resolvable(f: IncidentFile, cutoff: int, dayOf: DayOf) {
    f.Record? && !Resolved(f) && IncidentDay(f.value, dayOf).Some? && IncidentDay(f.value, dayOf).value < cutoff
  }

  function ResolveOne(f: IncidentFile, cutoff: int, dayOf: DayOf): IncidentFile {
    if Resolvable(f, cutoff, dayOf) then Record(f.value.(resolution := Some(RESOLVED))) else f
  }

  /** The incidents that stop the resolving script: also an open one whose day of detection cannot be computed. */
  ghost function ResolveHalting(incidents: map<string, IncidentFile>, dayOf: DayOf): set<string> {
    Garbled(incidents) + set key | key in incidents && Unplaced(incidents[key], dayOf)
  }

  predicate Unplaced(f: IncidentFile, dayOf: DayOf) {
    f.Record? && !Resolved(f) && f.value.detectedAt.Some? && dayOf(f.value.detectedAt.value).None?
  }

  ghost predicate ResolveReached(w: World, dayOf: DayOf, key: string) {
    Reached(w.incidents.Keys, ResolveHalting(w.incidents, dayOf), INCIDENT_FILE, key)
  }

  ghost function AfterResolve(w: World, cutoff: int, dayOf: DayOf): World {
    w.(incidents := map key | key in w.incidents ::
         if ResolveReached(w, dayOf, key) then ResolveOne(w.incidents[key], cutoff, dayOf) else w.incidents[key])
  }

  /** An incident the archiver gets to and moves. */
  ghost predicate Movable(incidents: map<string, IncidentFile>, key: string) {
    Reached(incidents.Keys, Garbled(incidents), INCIDENT_FILE, key) && Resolved(incidents[key])
  }

  /** Movable incidents go to the archive; one archived there before under the same name is replaced. */
  ghost function AfterArchive(w: World): World {
    w.(incidents := map key | key in w.incidents && !Movable(w.incidents, key) :: w.incidents[key],
       archive := w.archive + map key | key in w.incidents && Movable(w.incidents, key) :: w.incidents[key])
  }

  /** Expectations are written in UTC. */
  function NewExpectation(id: string, scheduledFor: int): ManifestFile {
    Record(Manifest(1, EXPECTED, Some(id), Some(Aware(scheduledFor)), 0))
  }

  predicate Registrable(w: World, id: string, scheduledFor: int) {
    ValidRunId(id) && InRange(scheduledFor) && w.disk.writes(id + EXPECTATION_FILE)
  }

  predicate Acknowledgeable(w: World, id: string, scheduledFor: int, acknowledgedAt: int) {
    ValidRunId(id) && InRange(scheduledFor) && InRange(acknowledgedAt) && w.disk.writes(id + ACK_FILE)
  }

  /** What can happen to the stored records. */
  datatype Step =
    | RegisterStep(id: string, scheduledFor: int)
    | AckStep(id: string, scheduledFor: int, acknowledgedAt: int)
    | TickStep(checkedAt: int, grace: int)
    | RetireStep(cutoff: int, day: DayOf)
    | ResolveStep(cutoff: int, day: DayOf)
    | ArchiveStep

  ghost predicate Possible(w: World, s: Step) {
    match s
    case RegisterStep(id, at) => Registrable(w, id, at)
    case AckStep(id, at, acknowledged) => Acknowledgeable(w, id, at, acknowledged)
    case TickStep(checkedAt, grace) => InRange(checkedAt) && 0 <= grace
    case _ => true
  }

  ghost function After(w: World, s: Step): World
    requires Possible(w, s)
  {
    match s
    case RegisterStep(id, at) => w.(expectations := w.expectations[id := NewExpectation(id, at)])
    case AckStep(id, at, acknowledged) => w.(acks := w.acks[id := AckFor(id, at, acknowledged)])
    case TickStep(t, grace) => w.(incidents := Scanned(w, Scannable(w, t, grace), t, grace))
    case RetireStep(cutoff, day) => AfterRetire(w, cutoff, day)
    case ResolveStep(cutoff, day) => AfterResolve(w, cutoff, day)
    case ArchiveStep => AfterArchive(w)
  }

  // ------------------------------------------------------------------ store

  class WatchdogStore {
    const disk: Disk
    var expectations: map<string, ManifestFile>
    var acks: map<string, AckFile>
    var incidents: map<string, IncidentFile>
    var archive: map<string, IncidentFile>

    function Value(): World
      reads this
    {
      World(expectations, acks, incidents, archive, disk)
    }

    constructor (disk: Disk)
      ensures Value() == World(map[], map[], map[], map[], disk)
    {
      this.disk := disk;
      expectations, acks, incidents, archive := map[], map[], map[], map[];
    }

    /** Registers an expectation, over any earlier one of the same run. */
    method RegisterExpectedRun(id: string, scheduledFor: int) returns (ok: bool)
      modifies this
      ensures ok <==> Registrable(old(Value()), id, scheduledFor)
      ensures Value() == if ok then After(old(Value()), RegisterStep(id, scheduledFor)) else old(Value())
    {
      ok := Registrable(Value(), id, scheduledFor);
      if ok {
        expectations := expectations[id := NewExpectation(id, scheduledFor)];
      }
    }

    method WriteStartAck(id: string, scheduledFor: int, acknowledgedAt: int) returns (ok: bool)
      modifies this
      ensures ok <==> Acknowledgeable(old(Value()), id, scheduledFor, acknowledgedAt)
      ensures Value() == if ok then After(old(Value()), AckStep(id, scheduledFor, acknowledgedAt)) else old(Value())
    {
      ok := Acknowledgeable(Value(), id, scheduledFor, acknowledgedAt);
      if ok {
        acks := acks[id := AckFor(id, scheduledFor, acknowledgedAt)];
      }
    }

    /** Audits one expected run, filing an incident once. */
    method CheckExpectedRun(id: string, scheduledFor: int, zone: int, checkedAt: int, grace: int) returns (r: Result<Verdict, HostError>)
      modifies this`incidents
      ensures r == Checked(old(Value()), id, scheduledFor, zone, checkedAt, grace)
      ensures incidents == if r.Success? && Alarming(r.value) then File(old(incidents), Some((id, NewIncident(id, checkedAt, r.value))))
                           else old(incidents)
    {
      if !disk.opens(id + ACK_FILE) {
        return Failure(FILE_NAME_REFUSED);
      }
      r := EvaluateStartAck(AckOf(acks, id), scheduledFor, zone, checkedAt, grace, id);
      if r.Failure? || !Alarming(r.value) {
        return;
      }
      if !disk.opens(id + INCIDENT_FILE) {
        return Failure(FILE_NAME_REFUSED);
      }
      if id !in incidents {
        if !disk.writes(id + INCIDENT_FILE) {
          return Failure(FILE_NAME_REFUSED);
        }
        incidents := incidents[id := NewIncident(id, checkedAt, r.value)];
      }
    }

    /** One watchdog tick over the expectation files, by name; one that halts it leaves the rest unscanned. */
    method ScanExpectedRuns(checkedAt: int, grace: int) returns (stopped: Option<HostError>)
      requires InRange(checkedAt) && 0 <= grace
      modifies this`incidents
      ensures stopped.None? <==> Halting(old(Value()), checkedAt, grace) == {}
      ensures stopped.Some? ==> HaltedBy(old(Value()), checkedAt, grace, stopped.value)
      ensures Value() == After(old(Value()), TickStep(checkedAt, grace))
    {
      hide Halt, Flagged, File, Listing, Reached, ReachedKeys, Halting, SameFiling;
      ghost var before := Value();
      var listing := ListFiles(expectations.Keys, EXPECTATION_FILE);
      ListingKeys(expectations.Keys, EXPECTATION_FILE, listing);
      SameFilingStart(before);
      for i := 0 to |listing|
        invariant forall key :: key in listing[..i] ==> key in before.expectations
        invariant forall j :: 0 <= j < i ==> listing[j] !in Halting(before, checkedAt, grace)
        invariant Value() == before.(incidents := Scanned(before, listing[..i], checkedAt, grace)) && SameFiling(before, Value())
      {
        var key := listing[i];
        assert key in listing;
        assert listing[..i + 1][..i] == listing[..i];
        HaltingIff(before, key, checkedAt, grace);
        label L:
        stopped := ScanOne(key, checkedAt, grace);
        FilingStep(before, old@L(Value()), key, checkedAt, grace);
        if stopped.Some? {
          ScannableIsPrefix(before, checkedAt, grace, listing, i);
          FirstHalts(before, checkedAt, grace, listing, i);
          return;
        }
      }
      assert listing[..|listing|] == listing;
      ScannableIsPrefix(before, checkedAt, grace, listing, |listing|);
      return None;
    }

    /** The part of a tick that concerns one expectation. */
    method ScanOne(key: string, checkedAt: int, grace: int) returns (stopped: Option<HostError>)
      requires key in expectations
      modifies this`incidents
      ensures stopped == Halt(old(Value()), key, checkedAt, grace)
      ensures incidents == File(old(incidents), Flagged(old(Value()), key, checkedAt, grace))
    {
      hide EvaluateStartAck;
      var f := expectations[key];
      if f.NotObject? {
        return Some(ATTRIBUTE_ERROR);
      }
      if f.TooDeep? {
        return Some(RECURSION_ERROR);
      }
      if IsRetired(f) {
        return None;
      }
      if !Usable(f) {
        if !disk.opens(key + INCIDENT_FILE) || (key !in incidents && !disk.writes(key + INCIDENT_FILE)) {
          return Some(FILE_NAME_REFUSED);
        }
        if key !in incidents {
          incidents := incidents[key := NewIncident(key, checkedAt, SCHEDULER_EXPECTATION_INVALID)];
        }
        return None;
      }
      var r := CheckExpectedRun(f.value.runId.value, f.value.scheduledFor.value.us, f.value.zone, checkedAt, grace);
      return if r.Failure? then Some(r.error) else None;
    }

    /** The names that still block, in file order; a garbled incident file stops the listing. */
    method UnresolvedIncidentIds() returns (r: Result<seq<string>, HostError>)
      ensures r.Failure? <==> Garbled(incidents) != {}
      ensures r.Success? ==> r.value == Blocking(incidents, FilesIn(incidents.Keys, INCIDENT_FILE))
    {
      hide Resolved, Listing;
      var listing := ListFiles(incidents.Keys, INCIDENT_FILE);
      ListingKeys(incidents.Keys, INCIDENT_FILE, listing);
      ListingIsUnique(incidents.Keys, INCIDENT_FILE, listing, FilesIn(incidents.Keys, INCIDENT_FILE));
      var names: seq<string> := [];
      for i := 0 to |listing|
        invariant forall key :: key in listing[..i] ==> key in incidents
        invariant forall j :: 0 <= j < i ==> listing[j] !in Garbled(incidents)
        invariant names == Blocking(incidents, listing[..i])
      {
        var key := listing[i];
        assert key in listing;
        assert listing[..i + 1][..i] == listing[..i];
        if incidents[key].Undecodable? || incidents[key].TooDeep? {
          assert key in Garbled(incidents);
          return Failure(ReadError(incidents[key]));
        }
        if !Resolved(incidents[key]) {
          names := names + [Shown(key, incidents[key])];
        }
      }
      assert listing[..|listing|] == listing;
      ReachedIsPrefix(incidents.Keys, Garbled(incidents), INCIDENT_FILE, listing, |listing|);
      return Success(names);
    }

    method RetireExpectations(cutoff: int, dayOf: DayOf) returns (r: Result<nat, HostError>)
      modifies this`expectations
      ensures Value() == After(old(Value()), RetireStep(cutoff, dayOf))
      ensures r.Failure? <==> RetireHalting(old(expectations), dayOf) != {}
      ensures r.Success? ==> r.value == |set key | key in old(expectations) && Retirable(old(expectations)[key], cutoff, dayOf)|
    {
      hide Retirable, RetireOne, Listing, Reached, RetiredAmong, RetirableAmong, RetireHalting, Undatable;
      var before := expectations;
      ghost var halting := RetireHalting(before, dayOf);
      var listing := ListFiles(before.Keys, EXPECTATION_FILE);
      ListingKeys(before.Keys, EXPECTATION_FILE, listing);
      ghost var seen: set<string> := {};
      var retired := 0;
      NoneRetired(before, cutoff, dayOf);
      for i := 0 to |listing|
        invariant forall j :: 0 <= j < i ==> listing[j] !in halting
        invariant forall key :: key in seen <==> key in listing[..i]
        invariant expectations == RetiredAmong(before, seen, cutoff, dayOf)
        invariant retired == |RetirableAmong(before, seen, cutoff, dayOf)|
      {
        var key := listing[i];
        assert key in listing;
        NotBefore(before.Keys, EXPECTATION_FILE, listing, i);
        var f := before[key];
        RetireHaltingIff(before, dayOf, key);
        if f.Undecodable? || f.TooDeep? || Undatable(f, dayOf) {
          ReachedIsPrefix(before.Keys, halting, EXPECTATION_FILE, listing, i);
          AllRetired(World(before, acks, incidents, archive, disk), seen, cutoff, dayOf);
          return Failure(if f.Record? then OVERFLOW_ERROR else ReadError(f));
        }
        Longer(listing, i);
        OneRetired(before, seen, key, cutoff, dayOf);
        seen := seen + {key};
        if Retirable(f, cutoff, dayOf) {
          expectations := expectations[key := Record(f.value.(status := RETIRED))];
          retired := retired + 1;
        }
      }
      assert listing[..|listing|] == listing;
      RetireHaltingListed(before, dayOf);
      ReachedIsPrefix(before.Keys, halting, EXPECTATION_FILE, listing, |listing|);
      AllRetired(World(before, acks, incidents, archive, disk), seen, cutoff, dayOf);
      return Success(retired);
    }

    method ResolveIncidents(cutoff: int, dayOf: DayOf) returns (r: Result<nat, HostError>)
      modifies this`incidents
      ensures Value() == After(old(Value()), ResolveStep(cutoff, dayOf))
      ensures r.Failure? <==> ResolveHalting(old(incidents), dayOf) != {}
      ensures r.Success? ==> r.value == |set key | key in old(incidents) && Resolvable(old(incidents)[key], cutoff, dayOf)|
    {
      hide Resolvable, ResolveOne, Listing, Reached, ResolvedAmong, ResolvableAmong, ResolveHalting, Unplaced;
      var before := incidents;
      ghost var halting := ResolveHalting(before, dayOf);
      var listing := ListFiles(before.Keys, INCIDENT_FILE);
      ListingKeys(before.Keys, INCIDENT_FILE, listing);
      ghost var seen: set<string> := {};
      var resolved := 0;
      NoneResolved(before, cutoff, dayOf);
      for i := 0 to |listing|
        invariant forall j :: 0 <= j < i ==> listing[j] !in halting
        invariant forall key :: key in seen <==> key in listing[..i]
        invariant incidents == ResolvedAmong(before, seen, cutoff, dayOf)
        invariant resolved == |ResolvableAmong(before, seen, cutoff, dayOf)|
      {
        var key := listing[i];
        assert key in listing;
        NotBefore(before.Keys, INCIDENT_FILE, listing, i);
        var f := before[key];
        ResolveHaltingIff(before, dayOf, key);
        if f.Undecodable? || f.TooDeep? || Unplaced(f, dayOf) {
          ReachedIsPrefix(before.Keys, halting, INCIDENT_FILE, listing, i);
          AllResolved(World(expectations, acks, before, archive, disk), seen, cutoff, dayOf);
          return Failure(if f.Record? then OVERFLOW_ERROR else ReadError(f));
        }
        Longer(listing, i);
        OneResolved(before, seen, key, cutoff, dayOf);
        seen := seen + {key};
        if Resolvable(f, cutoff, dayOf) {
          incidents := incidents[key := Record(f.value.(resolution := Some(RESOLVED)))];
          resolved := resolved + 1;
        }
      }
      assert listing[..|listing|] == listing;
      ResolveHaltingListed(before, dayOf);
      ReachedIsPrefix(before.Keys, halting, INCIDENT_FILE, listing, |listing|);
      AllResolved(World(expectations, acks, before, archive, disk), seen, cutoff, dayOf);
      return Success(resolved);
    }

    method ArchiveResolvedIncidents() returns (r: Result<nat, HostError>)
      modifies this`incidents, this`archive
      ensures Value() == After(old(Value()), ArchiveStep)
      ensures r.Failure? <==> Garbled(old(incidents)) != {}
      ensures r.Success? ==> r.value == |set key | key in old(incidents) && Resolved(old(incidents)[key])|
    {
      hide Resolved, Kept, Shelved, AfterArchive, Listing, Reached, Garbled;
      var before, shelved := incidents, archive;
      var listing := ListFiles(before.Keys, INCIDENT_FILE);
      ListingKeys(before.Keys, INCIDENT_FILE, listing);
      ghost var done: set<string> := {};
      var archived := 0;
      NothingMoved(before, shelved);
      for i := 0 to |listing|
        invariant archived == |done|
        invariant forall j :: 0 <= j < i ==> listing[j] !in Garbled(before)
        invariant forall key :: key in done <==> key in listing[..i] && key in before && Resolved(before[key])
        invariant incidents == Kept(before, done) && archive == Shelved(shelved, before, done)
      {
        var key := listing[i];
        assert key in listing;
        NotBefore(before.Keys, INCIDENT_FILE, listing, i);
        GarbledIff(before, key);
        if before[key].Undecodable? || before[key].TooDeep? {
          ReachedIsPrefix(before.Keys, Garbled(before), INCIDENT_FILE, listing, i);
          AllMoved(World(expectations, acks, before, shelved, disk), done);
          return Failure(ReadError(before[key]));
        }
        Longer(listing, i);
        if Resolved(before[key]) {
          MoveOne(before, shelved, done, key);
          done := done + {key};
          archive := archive[key := before[key]];
          incidents := incidents - {key};
          archived := archived + 1;
        }
      }
      assert listing[..|listing|] == listing;
      GarbledIsListed(before);
      ReachedIsPrefix(before.Keys, Garbled(before), INCIDENT_FILE, listing, |listing|);
      AllMoved(World(expectations, acks, before, shelved, disk), done);
      assert done == set key | key in before && Resolved(before[key]);
      return Success(archived);
    }
  }

  // ------------------------------------------------------ how far a script gets

  /** What stopped a tick is what its first halting expectation stops it with. */
  ghost predicate HaltedBy(w: World, checkedAt: int, grace: int, e: HostError) {
    exists key :: key in w.expectations && Halt(w, key, checkedAt, grace) == Some(e)
                  && forall other :: other in Halting(w, checkedAt, grace) && other != key ==> NamedBefore(key, other, EXPECTATION_FILE)
  }

  lemma HaltingIff(w: World, key: string, checkedAt: int, grace: int)
    requires key in w.expectations
    ensures key in Halting(w, checkedAt, grace) <==> Halt(w, key, checkedAt, grace).Some?
    ensures Halting(w, checkedAt, grace) <= w.expectations.Keys
  {
    hide Halt;
  }

  lemma GarbledIff<T>(files: map<string, Stored<T>>, key: string)
    requires key in files
    ensures key in Garbled(files) <==> files[key].Undecodable? || files[key].TooDeep?
    ensures Garbled(files) <= files.Keys
  {
  }

  lemma GarbledIsListed<T>(files: map<string, Stored<T>>)
    ensures Garbled(files) <= files.Keys
  {
  }

  lemma RetireHaltingListed(expectations: map<string, ManifestFile>, dayOf: DayOf)
    ensures RetireHalting(expectations, dayOf) <= expectations.Keys
  {
  }

  lemma ResolveHaltingListed(incidents: map<string, IncidentFile>, dayOf: DayOf)
    ensures ResolveHalting(incidents, dayOf) <= incidents.Keys
  {
    hide Unplaced;
  }

  lemma RetireHaltingIff(expectations: map<string, ManifestFile>, dayOf: DayOf, key: string)
    requires key in expectations
    ensures var f := expectations[key];
            && (key in RetireHalting(expectations, dayOf) <==> f.Undecodable? || f.TooDeep? || Undatable(f, dayOf))
            && (Undatable(f, dayOf) ==> f.Record?)
    ensures RetireHalting(expectations, dayOf) <= expectations.Keys
  {
  }

  lemma ResolveHaltingIff(incidents: map<string, IncidentFile>, dayOf: DayOf, key: string)
    requires key in incidents
    ensures var f := incidents[key];
            && (key in ResolveHalting(incidents, dayOf) <==> f.Undecodable? || f.TooDeep? || Unplaced(f, dayOf))
            && (Unplaced(f, dayOf) ==> f.Record?)
    ensures ResolveHalting(incidents, dayOf) <= incidents.Keys
  {
    hide Resolved;
  }

  /** Since a tick began, incidents were only added, under names the disk takes. */
  ghost predicate SameFiling(before: World, now: World) {
    && now.disk == before.disk && now.expectations == before.expectations && now.acks == before.acks
    && before.incidents.Keys <= now.incidents.Keys
    && forall id :: id in now.incidents && id !in before.incidents ==>
         before.disk.opens(id + INCIDENT_FILE) && before.disk.writes(id + INCIDENT_FILE)
  }

  lemma SameFilingStart(w: World)
    ensures SameFiling(w, w)
  {
  }

  lemma SameChecks(before: World, now: World, key: string, checkedAt: int, grace: int)
    requires SameFiling(before, now) && key in before.expectations
    ensures Halt(now, key, checkedAt, grace) == Halt(before, key, checkedAt, grace)
    ensures Flagged(now, key, checkedAt, grace) == Flagged(before, key, checkedAt, grace)
  {
    hide EvaluateStartAck;
  }

  lemma FlaggedIsFiled(w: World, key: string, checkedAt: int, grace: int)
    requires key in w.expectations && Flagged(w, key, checkedAt, grace).Some?
    ensures !FilingFails(w, Flagged(w, key, checkedAt, grace).value.0)
  {
    hide EvaluateStartAck;
  }

  /** One expectation is scanned as if the tick had just begun. */
  lemma FilingStep(before: World, now: World, key: string, checkedAt: int, grace: int)
    requires SameFiling(before, now) && key in before.expectations
    ensures Halt(now, key, checkedAt, grace) == Halt(before, key, checkedAt, grace)
    ensures Flagged(now, key, checkedAt, grace) == Flagged(before, key, checkedAt, grace)
    ensures SameFiling(before, now.(incidents := File(now.incidents, Flagged(now, key, checkedAt, grace))))
    ensures Halt(now, key, checkedAt, grace).Some? ==> File(now.incidents, Flagged(now, key, checkedAt, grace)) == now.incidents
  {
    SameChecks(before, now, key, checkedAt, grace);
    if Flagged(now, key, checkedAt, grace).Some? {
      FlaggedIsFiled(now, key, checkedAt, grace);
    }
    HaltedIsUnflagged(now, key, checkedAt, grace);
    hide Halt, Flagged;
  }

  lemma HaltedIsUnflagged(w: World, key: string, checkedAt: int, grace: int)
    requires key in w.expectations
    ensures Halt(w, key, checkedAt, grace).Some? ==> Flagged(w, key, checkedAt, grace).None?
  {
    hide Halt;
  }

  lemma FirstHalts(w: World, checkedAt: int, grace: int, listing: seq<string>, n: nat)
    requires Listing(w.expectations.Keys, EXPECTATION_FILE, listing) && n < |listing| && listing[n] in w.expectations
    requires Halt(w, listing[n], checkedAt, grace).Some? && forall j :: 0 <= j < n ==> listing[j] !in Halting(w, checkedAt, grace)
    ensures HaltedBy(w, checkedAt, grace, Halt(w, listing[n], checkedAt, grace).value)
  {
    hide NamedBefore, Halt;
    forall other | other in Halting(w, checkedAt, grace) && other != listing[n] ensures NamedBefore(listing[n], other, EXPECTATION_FILE) {
      assert other in listing;
      var j :| 0 <= j < |listing| && listing[j] == other;
    }
  }

  lemma ListingKeys(keys: set<string>, suffix: string, listing: seq<string>)
    requires Listing(keys, suffix, listing)
    ensures forall key :: key in listing <==> key in keys
  {
  }

  lemma Longer(listing: seq<string>, i: nat)
    requires i < |listing|
    ensures forall key :: key in listing[..i + 1] <==> key in listing[..i] || key == listing[i]
  {
    assert listing[..i + 1] == listing[..i] + [listing[i]];
  }

  lemma NotBefore(keys: set<string>, suffix: string, listing: seq<string>, i: nat)
    requires Listing(keys, suffix, listing) && i < |listing|
    ensures listing[i] !in listing[..i]
  {
    NamesAreTotal(listing[i], listing[i], suffix);
    hide NamedBefore;
    forall j | 0 <= j < i ensures listing[j] != listing[i] {
    }
  }

  lemma ScannableIsPrefix(w: World, checkedAt: int, grace: int, listing: seq<string>, n: nat)
    requires Listing(w.expectations.Keys, EXPECTATION_FILE, listing) && n <= |listing|
    requires forall j :: 0 <= j < n ==> listing[j] !in Halting(w, checkedAt, grace)
    requires n < |listing| ==> listing[n] in Halting(w, checkedAt, grace)
    ensures Scannable(w, checkedAt, grace) == listing[..n]
    ensures Halting(w, checkedAt, grace) == {} <==> n == |listing|
  {
    hide Halt;
    var halting := Halting(w, checkedAt, grace);
    assert halting <= w.expectations.Keys;
    ReachedIsPrefix(w.expectations.Keys, halting, EXPECTATION_FILE, listing, n);
    hide NamedBefore, Reached, Halting;
    ListingIsUnique(ReachedKeys(w.expectations.Keys, halting, EXPECTATION_FILE), EXPECTATION_FILE, Scannable(w, checkedAt, grace), listing[..n]);
  }

  /** The expectations with those among `seen` retired that are due, and which they are. */
  ghost function RetiredAmong(before: map<string, ManifestFile>, seen: set<string>, cutoff: int, dayOf: DayOf): map<string, ManifestFile> {
    map key | key in before :: if key in seen then RetireOne(before[key], cutoff, dayOf) else before[key]
  }

  ghost function RetirableAmong(before: map<string, ManifestFile>, seen: set<string>, cutoff: int, dayOf: DayOf): set<string> {
    set key | key in before && key in seen && Retirable(before[key], cutoff, dayOf)
  }

  lemma NoneRetired(before: map<string, ManifestFile>, cutoff: int, dayOf: DayOf)
    ensures RetiredAmong(before, {}, cutoff, dayOf) == before && RetirableAmong(before, {}, cutoff, dayOf) == {}
  {
    hide Retirable, RetireOne;
  }

  lemma OneRetired(before: map<string, ManifestFile>, seen: set<string>, key: string, cutoff: int, dayOf: DayOf)
    requires key in before && key !in seen
    ensures key in RetiredAmong(before, seen, cutoff, dayOf) && RetiredAmong(before, seen, cutoff, dayOf)[key] == before[key]
    ensures Retirable(before[key], cutoff, dayOf) ==> before[key].Record?
    ensures RetiredAmong(before, seen + {key}, cutoff, dayOf)
            == if Retirable(before[key], cutoff, dayOf)
               then RetiredAmong(before, seen, cutoff, dayOf)[key := Record(before[key].value.(status := RETIRED))]
               else RetiredAmong(before, seen, cutoff, dayOf)
    ensures |RetirableAmong(before, seen + {key}, cutoff, dayOf)|
            == |RetirableAmong(before, seen, cutoff, dayOf)| + if Retirable(before[key], cutoff, dayOf) then 1 else 0
  {
    RetireOneIs(before[key], cutoff, dayOf);
    hide Retirable, RetireOne;
    assert RetirableAmong(before, seen + {key}, cutoff, dayOf)
        == RetirableAmong(before, seen, cutoff, dayOf) + if Retirable(before[key], cutoff, dayOf) then {key} else {};
  }

  lemma AllRetired(w: World, seen: set<string>, cutoff: int, dayOf: DayOf)
    requires forall key :: key in seen <==> RetireReached(w, dayOf, key)
    ensures AfterRetire(w, cutoff, dayOf) == w.(expectations := RetiredAmong(w.expectations, seen, cutoff, dayOf))
    ensures seen == w.expectations.Keys ==>
              RetirableAmong(w.expectations, seen, cutoff, dayOf)
              == set key | key in w.expectations && Retirable(w.expectations[key], cutoff, dayOf)
  {
    hide Retirable, RetireOne, RetireReached;
  }

  /** The incidents with those among `seen` resolved that are due, and which they are. */
  ghost function ResolvedAmong(before: map<string, IncidentFile>, seen: set<string>, cutoff: int, dayOf: DayOf): map<string, IncidentFile> {
    map key | key in before :: if key in seen then ResolveOne(before[key], cutoff, dayOf) else before[key]
  }

  ghost function ResolvableAmong(before: map<string, IncidentFile>, seen: set<string>, cutoff: int, dayOf: DayOf): set<string> {
    set key | key in before && key in seen && Resolvable(before[key], cutoff, dayOf)
  }

  lemma NoneResolved(before: map<string, IncidentFile>, cutoff: int, dayOf: DayOf)
    ensures ResolvedAmong(before, {}, cutoff, dayOf) == before && ResolvableAmong(before, {}, cutoff, dayOf) == {}
  {
    hide Resolvable, ResolveOne;
  }

  lemma OneResolved(before: map<string, IncidentFile>, seen: set<string>, key: string, cutoff: int, dayOf: DayOf)
    requires key in before && key !in seen
    ensures key in ResolvedAmong(before, seen, cutoff, dayOf) && ResolvedAmong(before, seen, cutoff, dayOf)[key] == before[key]
    ensures Resolvable(before[key], cutoff, dayOf) ==> before[key].Record?
    ensures ResolvedAmong(before, seen + {key}, cutoff, dayOf)
            == if Resolvable(before[key], cutoff, dayOf)
               then ResolvedAmong(before, seen, cutoff, dayOf)[key := Record(before[key].value.(resolution := Some(RESOLVED)))]
               else ResolvedAmong(before, seen, cutoff, dayOf)
    ensures |ResolvableAmong(before, seen + {key}, cutoff, dayOf)|
            == |ResolvableAmong(before, seen, cutoff, dayOf)| + if Resolvable(before[key], cutoff, dayOf) then 1 else 0
  {
    ResolveOneIs(before[key], cutoff, dayOf);
    hide Resolvable, ResolveOne;
    assert ResolvableAmong(before, seen + {key}, cutoff, dayOf)
        == ResolvableAmong(before, seen, cutoff, dayOf) + if Resolvable(before[key], cutoff, dayOf) then {key} else {};
  }

  lemma AllResolved(w: World, seen: set<string>, cutoff: int, dayOf: DayOf)
    requires forall key :: key in seen <==> ResolveReached(w, dayOf, key)
    ensures AfterResolve(w, cutoff, dayOf) == w.(incidents := ResolvedAmong(w.incidents, seen, cutoff, dayOf))
    ensures seen == w.incidents.Keys ==>
              ResolvableAmong(w.incidents, seen, cutoff, dayOf)
              == set key | key in w.incidents && Resolvable(w.incidents[key], cutoff, dayOf)
  {
    hide Resolvable, ResolveOne, ResolveReached;
  }

  lemma RetireOneIs(f: ManifestFile, cutoff: int, dayOf: DayOf)
    ensures Retirable(f, cutoff, dayOf) ==> f.Record?
    ensures RetireOne(f, cutoff, dayOf) == if Retirable(f, cutoff, dayOf) then Record(f.value.(status := RETIRED)) else f
  {
  }

  lemma ResolveOneIs(f: IncidentFile, cutoff: int, dayOf: DayOf)
    ensures Resolvable(f, cutoff, dayOf) ==> f.Record?
    ensures ResolveOne(f, cutoff, dayOf) == if Resolvable(f, cutoff, dayOf) then Record(f.value.(resolution := Some(RESOLVED))) else f
  {
  }

  function Kept(before: map<string, IncidentFile>, done: set<string>): map<string, IncidentFile> {
    map key | key in before && key !in done :: before[key]
  }

  function Shelved(shelved: map<string, IncidentFile>, before: map<string, IncidentFile>, done: set<string>): map<string, IncidentFile> {
    shelved + map key | key in before && key in done :: before[key]
  }

  lemma NothingMoved(before: map<string, IncidentFile>, shelved: map<string, IncidentFile>)
    ensures Kept(before, {}) == before && Shelved(shelved, before, {}) == shelved
  {
  }

  lemma MoveOne(before: map<string, IncidentFile>, shelved: map<string, IncidentFile>, done: set<string>, key: string)
    requires key in before && key !in done
    ensures Kept(before, done + {key}) == Kept(before, done) - {key}
    ensures Shelved(shelved, before, done + {key}) == Shelved(shelved, before, done)[key := before[key]]
  {
  }

  lemma AllMoved(w: World, done: set<string>)
    requires forall key :: key in done <==>
               key in w.incidents && Movable(w.incidents, key)
    ensures AfterArchive(w) == w.(incidents := Kept(w.incidents, done), archive := Shelved(w.archive, w.incidents, done))
  {
    hide Movable;
    assert AfterArchive(w).incidents == Kept(w.incidents, done);
    assert AfterArchive(w).archive == Shelved(w.archive, w.incidents, done);
  }

  /** How an unresolved incident is named: by the run it records, or by its file. */
  function Shown(key: string, f: IncidentFile): string {
    if f.Record? && f.value.runId.Some? && f.value.runId.value != "" then f.value.runId.value else key + INCIDENT_FILE
  }

  /** The names of the unresolved incidents among the listed files, in order. */
  function Blocking(incidents: map<string, IncidentFile>, listing: seq<string>): seq<string>
    requires forall key :: key in listing ==> key in incidents
  {
    if listing == [] then []
    else
      var key := listing[|listing| - 1];
      var names := Blocking(incidents, listing[..|listing| - 1]);
      if Resolved(incidents[key]) then names else names + [Shown(key, incidents[key])]
  }

  /** A name blocks exactly when some unresolved incident is shown under it. */
  lemma {:induction false} BlocksIff(incidents: map<string, IncidentFile>, listing: seq<string>, name: string)
    requires forall key :: key in listing ==> key in incidents
    ensures name in Blocking(incidents, listing) <==>
              exists key :: key in listing && !Resolved(incidents[key]) && name == Shown(key, incidents[key])
  {
    hide Resolved, Shown;
    if listing != [] {
      BlocksIff(incidents, listing[..|listing| - 1], name);
      Longer(listing, |listing| - 1);
      assert listing[..|listing| - 1 + 1] == listing;
    }
  }

  /** The names that block a directory of incidents, wherever they can be listed. */
  ghost function BlockedBy(incidents: map<string, IncidentFile>): seq<string> {
    Blocking(incidents, FilesIn(incidents.Keys, INCIDENT_FILE))
  }

  lemma UnresolvedBlocks(incidents: map<string, IncidentFile>, key: string)
    requires key in incidents && !Resolved(incidents[key])
    ensures Shown(key, incidents[key]) in BlockedBy(incidents)
  {
    hide Resolved, Shown, NamedBefore;
    assert key in FilesIn(incidents.Keys, INCIDENT_FILE);
    BlocksIff(incidents, FilesIn(incidents.Keys, INCIDENT_FILE), Shown(key, incidents[key]));
  }

  lemma FileIff(incidents: map<string, IncidentFile>, flagged: Option<(string, IncidentFile)>, id: string)
    ensures id in File(incidents, flagged) <==> id in incidents || (flagged.Some? && flagged.value.0 == id)
    ensures id in incidents ==> File(incidents, flagged)[id] == incidents[id]
  {
  }

  // ----------------------------------------------------- what every tick keeps

  /** After a scan an incident is on file exactly if it was before, or an expectation calls for it. */
  lemma {:induction false} ScannedIff(w: World, listing: seq<string>, checkedAt: int, grace: int, id: string)
    requires forall key :: key in listing ==> key in w.expectations
    ensures id in Scanned(w, listing, checkedAt, grace) <==>
              || id in w.incidents
              || exists key :: key in listing && Flagged(w, key, checkedAt, grace).Some? && Flagged(w, key, checkedAt, grace).value.0 == id
    ensures id in w.incidents ==> Scanned(w, listing, checkedAt, grace)[id] == w.incidents[id]
  {
    hide Flagged, File;
    if listing != [] {
      var front, last := listing[..|listing| - 1], listing[|listing| - 1];
      ScannedIff(w, front, checkedAt, grace, id);
      FileIff(Scanned(w, front, checkedAt, grace), Flagged(w, last, checkedAt, grace), id);
      assert listing == front + [last];
    }
  }

  /**
    After a tick an incident is on file exactly if it was before, or an expectation
    that the scan reached calls for it.
   */
  lemma TickIff(w: World, tick: Step, id: string)
    requires tick.TickStep? && Possible(w, tick)
    ensures id in After(w, tick).incidents <==>
              || id in w.incidents
              || exists key :: key in w.expectations && TickReached(w, tick, key)
                   && Flagged(w, key, tick.checkedAt, tick.grace).Some? && Flagged(w, key, tick.checkedAt, tick.grace).value.0 == id
    ensures id in w.incidents ==> After(w, tick).incidents[id] == w.incidents[id]
  {
    ScannedIff(w, Scannable(w, tick.checkedAt, tick.grace), tick.checkedAt, tick.grace, id);
    hide Flagged, Scanned, Reached, Halting;
  }

  /** The tick gets to this expectation: neither it nor any listed before it stops the scan. */
  ghost predicate TickReached(w: World, tick: Step, key: string)
    requires tick.TickStep?
  {
    Reached(w.expectations.Keys, Halting(w, tick.checkedAt, tick.grace), EXPECTATION_FILE, key)
  }

  /** A tick never removes or rewrites an incident, so what it found unresolved still blocks. */
  lemma TickKeepsIncidents(w: World, tick: Step, id: string)
    requires tick.TickStep? && Possible(w, tick) && id in w.incidents
    ensures id in After(w, tick).incidents && After(w, tick).incidents[id] == w.incidents[id]
    ensures !Resolved(w.incidents[id]) ==> Shown(id, w.incidents[id]) in BlockedBy(After(w, tick).incidents)
  {
    TickIff(w, tick, id);
    hide Resolved, After, BlockedBy;
    if !Resolved(w.incidents[id]) {
      UnresolvedBlocks(After(w, tick).incidents, id);
    }
  }

  /** An active expectation that is owed an incident: unusable, or past its grace without a valid acknowledgement. */
  predicate Overdue(w: World, key: string, checkedAt: int, grace: int) {
    && key in w.expectations && !IsRetired(w.expectations[key])
    && (Usable(w.expectations[key]) ==>
          && w.expectations[key].value.scheduledFor.value.us + grace < checkedAt
          && VerdictOn(w, w.expectations[key], checkedAt, grace) != Success(START_ACK_VALID))
  }

  lemma OverdueIsFlagged(w: World, key: string, checkedAt: int, grace: int)
    requires Overdue(w, key, checkedAt, grace) && key !in Halting(w, checkedAt, grace)
    ensures Flagged(w, key, checkedAt, grace).Some?
    ensures Flagged(w, key, checkedAt, grace).value.0 == FiledAs(w.expectations[key], key)
  {
    HaltingIff(w, key, checkedAt, grace);
    hide Halting;
  }

  /**
    No missed run vanishes that the tick gets to: an overdue expectation has an
    incident after the tick if neither it nor one listed before it stops the scan.
   */
  lemma NoMissedRunVanishes(w: World, tick: Step, key: string)
    requires tick.TickStep? && Possible(w, tick) && Overdue(w, key, tick.checkedAt, tick.grace) && TickReached(w, tick, key)
    ensures FiledAs(w.expectations[key], key) in After(w, tick).incidents
  {
    ReachedIsNotHalting(w.expectations.Keys, Halting(w, tick.checkedAt, tick.grace), EXPECTATION_FILE, key);
    OverdueIsFlagged(w, key, tick.checkedAt, tick.grace);
    TickIff(w, tick, FiledAs(w.expectations[key], key));
    hide Flagged, Reached, After, Overdue, Halting;
  }

  /** Some tick could file an incident under `id` for this expectation. */
  predicate Calls(f: ManifestFile, key: string, id: string) {
    !f.NotObject? && !f.TooDeep? && !IsRetired(f) && FiledAs(f, key) == id
  }

  lemma FlaggedCalls(w: World, key: string, checkedAt: int, grace: int)
    requires key in w.expectations && Flagged(w, key, checkedAt, grace).Some?
    ensures Calls(w.expectations[key], key, Flagged(w, key, checkedAt, grace).value.0)
  {
    hide EvaluateStartAck;
  }

  /**
    And exactly then: an overdue run with no incident yet, that no other expectation
    names, is filed by a tick if and only if the tick gets to its expectation.
   */
  lemma MissedRunIsFiledIff(w: World, tick: Step, key: string)
    requires tick.TickStep? && Possible(w, tick) && Overdue(w, key, tick.checkedAt, tick.grace)
    requires FiledAs(w.expectations[key], key) !in w.incidents
    requires forall other :: other in w.expectations && other != key ==>
               !Calls(w.expectations[other], other, FiledAs(w.expectations[key], key))
    ensures FiledAs(w.expectations[key], key) in After(w, tick).incidents <==> TickReached(w, tick, key)
  {
    var id := FiledAs(w.expectations[key], key);
    TickIff(w, tick, id);
    if TickReached(w, tick, key) {
      NoMissedRunVanishes(w, tick, key);
    } else {
      hide After, TickReached, Flagged, Overdue, Calls;
      forall other | other in w.expectations && Flagged(w, other, tick.checkedAt, tick.grace).Some?
                     && Flagged(w, other, tick.checkedAt, tick.grace).value.0 == id
        ensures other == key {
        FlaggedCalls(w, other, tick.checkedAt, tick.grace);
      }
    }
  }

  /**
    What stops a tick, spelled out: a manifest nested too deep or that is JSON but no
    object; a file name that the host refuses; or, for the run of a usable manifest, an
    acknowledgement nested too deep or times that leave the host's calendar.
   */
  lemma HaltsIff(w: World, key: string, checkedAt: int, grace: int)
    requires key in w.expectations
    ensures var f := w.expectations[key];
            key in Halting(w, checkedAt, grace) <==>
              || f.NotObject? || f.TooDeep?
              || (!IsRetired(f) && !Usable(f) && FilingFails(w, key))
              || (Usable(f) && RunHalts(w, f.value.runId.value, f.value.scheduledFor.value.us, f.value.zone, checkedAt, grace))
  {
    HaltingIff(w, key, checkedAt, grace);
    hide Halting;
  }

  predicate RunHalts(w: World, id: string, at: int, zone: int, checkedAt: int, grace: int) {
    var ack := AckOf(w.acks, id);
    var matches := ack.AckPayload? && ack.scheduledFor.Aware? && ack.acknowledgedAt.Aware? && ack.schemaVersion == 1
                   && ack.status == "STARTED" && ack.runId == id;
    var inTime := ack.AckPayload? && matches && ack.scheduledFor.us == at && ack.acknowledgedAt.us - at <= grace;
    || !w.disk.opens(id + ACK_FILE)
    || ack.TooNested?
    || (ack.NoFile? && LATEST < at + zone + grace)
    || (ack.AckPayload? && matches && (!InRange(ack.scheduledFor.us) || !InRange(at)))
    || (FilingFails(w, id) && !inTime && !(ack.NoFile? && checkedAt <= at + grace))
  }

  // ------------------------------------------------------ ticks that file nothing

  /** A disk that takes every name. */
  const OPEN_DISK := Disk(_ => true, _ => true)

  /** If the expectation listed first stops the tick, it files nothing. */
  lemma FirstStopsAll(w: World, tick: Step, first: string)
    requires tick.TickStep? && Possible(w, tick) && first in Halting(w, tick.checkedAt, tick.grace)
    requires forall key :: key in w.expectations && key != first ==> NamedBefore(first, key, EXPECTATION_FILE)
    ensures After(w, tick).incidents == w.incidents
  {
    hide Halting, After, NamedBefore, Flagged;
    forall id ensures id in After(w, tick).incidents <==> id in w.incidents {
      TickIff(w, tick, id);
      forall key | key in w.expectations ensures !TickReached(w, tick, key) {
        NamesAreTotal(first, key, EXPECTATION_FILE);
      }
    }
    assert After(w, tick).incidents.Keys == w.incidents.Keys;
    forall id | id in w.incidents ensures After(w, tick).incidents[id] == w.incidents[id] {
      TickIff(w, tick, id);
    }
  }

  /** Two expectations, one that stops the tick and one that is overdue behind it. */
  function TwoExpected(first: ManifestFile): World {
    World(map["pilot-a" := first, "pilot-b" := NewExpectation("pilot-b", EARLIEST)], map[], map[], map[], OPEN_DISK)
  }

  const LATE_TICK := TickStep(EARLIEST + START_ACK_GRACE + 1, START_ACK_GRACE)

  lemma SecondIsHidden(first: ManifestFile)
    requires Halt(TwoExpected(first), "pilot-a", LATE_TICK.checkedAt, LATE_TICK.grace).Some?
    ensures Overdue(TwoExpected(first), "pilot-b", LATE_TICK.checkedAt, LATE_TICK.grace)
    ensures Possible(TwoExpected(first), LATE_TICK) && After(TwoExpected(first), LATE_TICK).incidents == map[]
  {
    var w := TwoExpected(first);
    assert "pilot-a"[6] == 'a' && "pilot-b"[6] == 'b';
    assert w.expectations["pilot-b"] == NewExpectation("pilot-b", EARLIEST);
    HaltingIff(w, "pilot-a", LATE_TICK.checkedAt, LATE_TICK.grace);
    PilotsInOrder();
    hide Halting, Halt, After, NamedBefore;
    FirstStopsAll(w, LATE_TICK, "pilot-a");
  }

  lemma PilotsInOrder()
    ensures NamedBefore("pilot-a", "pilot-b", EXPECTATION_FILE)
  {
    CommonPrefix("pilot-", "a" + EXPECTATION_FILE, "b" + EXPECTATION_FILE);
    assert "pilot-" + ("a" + EXPECTATION_FILE) == "pilot-a" + EXPECTATION_FILE;
    assert "pilot-" + ("b" + EXPECTATION_FILE) == "pilot-b" + EXPECTATION_FILE;
  }

  /** An empty list stored under an earlier name hides a missed run: the tick files nothing at all. */
  lemma StoppedTickFilesNothing()
    ensures Overdue(TwoExpected(NotObject), "pilot-b", LATE_TICK.checkedAt, LATE_TICK.grace)
    ensures Possible(TwoExpected(NotObject), LATE_TICK) && After(TwoExpected(NotObject), LATE_TICK).incidents == map[]
  {
    assert "pilot-a"[6] == 'a' && "pilot-b"[6] == 'b';
    hide After, Overdue;
    SecondIsHidden(NotObject);
  }

  /** So does an active expectation of the last minute of the year 9999, for its deadline is beyond the calendar. */
  lemma OverflowFilesNothing()
    ensures var last := NewExpectation("pilot-a", LATEST - MINUTE + 1);
            && Overdue(TwoExpected(last), "pilot-b", LATE_TICK.checkedAt, LATE_TICK.grace)
            && Possible(TwoExpected(last), LATE_TICK) && After(TwoExpected(last), LATE_TICK).incidents == map[]
  {
    var last := NewExpectation("pilot-a", LATEST - MINUTE + 1);
    assert "pilot-a"[6] == 'a' && "pilot-b"[6] == 'b';
    assert TwoExpected(last).expectations["pilot-a"] == last;
    hide After, Overdue;
    SecondIsHidden(last);
  }

  /** Pending is a verdict only for a missing acknowledgement inside its grace. */
  lemma AlarmIff(ack: AckFile, scheduledFor: int, zone: int, checkedAt: int, grace: int, id: string)
    ensures var v := EvaluateStartAck(ack, scheduledFor, zone, checkedAt, grace, id);
            && (v == Success(START_ACK_PENDING) <==>
                  ack.NoFile? && checkedAt <= scheduledFor + grace && scheduledFor + zone + grace <= LATEST)
            && (v == Success(START_ACK_VALID) <==>
                  && ack.AckPayload? && ack.schemaVersion == 1 && ack.status == "STARTED" && ack.runId == id
                  && ack.scheduledFor == Aware(scheduledFor) && InRange(scheduledFor) && ack.acknowledgedAt.Aware?
                  && ack.acknowledgedAt.us <= scheduledFor + grace)
  {
  }

  // ------------------------------------------------------------ whole histories

  ghost predicate PossibleRun(w: World, steps: seq<Step>)
    decreases |steps|
  {
    steps != [] ==> Possible(w, steps[0]) && PossibleRun(After(w, steps[0]), steps[1..])
  }

  ghost function AfterAll(w: World, steps: seq<Step>): World
    requires PossibleRun(w, steps)
    decreases |steps|
  {
    if steps == [] then w else AfterAll(After(w, steps[0]), steps[1..])
  }

  lemma StepKeepsEvidence(w: World, s: Step, id: string)
    requires Possible(w, s) && (id in w.incidents || id in w.archive)
    ensures id in After(w, s).incidents || id in After(w, s).archive
    ensures id in w.incidents && !Resolved(w.incidents[id]) && !s.ResolveStep? ==>
              id in After(w, s).incidents && After(w, s).incidents[id] == w.incidents[id]
  {
    if s.TickStep? {
      TickIff(w, s, id);
    }
    hide Resolved, Scanned, ResolveOne, RetireOne, AckFor, Reached, RetireReached, ResolveReached, Scannable;
  }

  /** No history loses an incident: it is on file or in the archive ever after. */
  lemma {:induction false} EvidenceIsKept(w: World, steps: seq<Step>, id: string)
    requires PossibleRun(w, steps) && (id in w.incidents || id in w.archive)
    ensures id in AfterAll(w, steps).incidents || id in AfterAll(w, steps).archive
    decreases |steps|
  {
    if steps != [] {
      StepKeepsEvidence(w, steps[0], id);
      EvidenceIsKept(After(w, steps[0]), steps[1..], id);
      hide After;
    }
  }

  /** Without an explicit resolution an incident blocks for ever, unchanged. */
  lemma {:induction false} UnresolvedStaysBlocking(w: World, steps: seq<Step>, id: string)
    requires PossibleRun(w, steps) && id in w.incidents && !Resolved(w.incidents[id])
    requires forall s :: s in steps ==> !s.ResolveStep?
    ensures id in AfterAll(w, steps).incidents && AfterAll(w, steps).incidents[id] == w.incidents[id]
    ensures Shown(id, w.incidents[id]) in BlockedBy(AfterAll(w, steps).incidents)
    decreases |steps|
  {
    if steps == [] {
      UnresolvedBlocks(w.incidents, id);
    } else {
      StepKeepsEvidence(w, steps[0], id);
      UnresolvedStaysBlocking(After(w, steps[0]), steps[1..], id);
      hide After;
    }
  }

  // ------------------------------------------------ retire, resolve, archive

  /** No stored expectation can ever call for an incident named `id` again. */
  ghost predicate Quiet(w: World, id: string) {
    forall key :: key in w.expectations ==> !Calls(w.expectations[key], key, id)
  }

  lemma QuietStep(w: World, s: Step, id: string)
    requires Possible(w, s) && Quiet(w, id) && id !in w.incidents && !(s.RegisterStep? && s.id == id)
    ensures Quiet(After(w, s), id) && id !in After(w, s).incidents
  {
    if s.TickStep? {
      TickIff(w, s, id);
      forall key | key in w.expectations
        ensures Flagged(w, key, s.checkedAt, s.grace).Some? ==> Flagged(w, key, s.checkedAt, s.grace).value.0 != id {
        QuietIsUnflagged(w, key, s.checkedAt, s.grace, id);
      }
    }
    hide Resolved, Scanned, ResolveOne, AckFor, Flagged, TickReached, RetireReached, ResolveReached, Scannable;
  }

  lemma QuietIsUnflagged(w: World, key: string, checkedAt: int, grace: int, id: string)
    requires Quiet(w, id) && key in w.expectations
    ensures Flagged(w, key, checkedAt, grace).Some? ==> Flagged(w, key, checkedAt, grace).value.0 != id
  {
    if Flagged(w, key, checkedAt, grace).Some? {
      FlaggedCalls(w, key, checkedAt, grace);
    }
    hide Flagged, Calls;
  }

  /** Once quiet, an incident name stays gone unless its run is registered again. */
  lemma {:induction false} QuietForEver(w: World, steps: seq<Step>, id: string)
    requires PossibleRun(w, steps) && Quiet(w, id) && id !in w.incidents
    requires forall s :: s in steps ==> !(s.RegisterStep? && s.id == id)
    ensures id !in AfterAll(w, steps).incidents
    decreases |steps|
  {
    if steps != [] {
      QuietStep(w, steps[0], id);
      QuietForEver(After(w, steps[0]), steps[1..], id);
      hide After, Quiet;
    }
  }

  /** Retiring makes the scan pass this expectation over. */
  predicate Retires(f: ManifestFile, cutoff: int, dayOf: DayOf) {
    Retirable(f, cutoff, dayOf) && f.value.schemaVersion == 1
  }

  /**
    The maintenance can clear `id`: every expectation that calls for it is reached
    and past the cutoff, and its incident is reached and resolved, or open, reached by
    the resolving script and past the cutoff, with no expectation stopping the script.
   */
  ghost predicate Recoverable(w: World, id: string, cutoff: int, dayOf: DayOf) {
    && (forall key :: key in w.expectations && Calls(w.expectations[key], key, id) ==>
          RetireReached(w, dayOf, key) && Retires(w.expectations[key], cutoff, dayOf))
    && (id in w.incidents ==>
          && Reached(w.incidents.Keys, Garbled(w.incidents), INCIDENT_FILE, id)
          && (|| Resolved(w.incidents[id])
              || (RetireHalting(w.expectations, dayOf) == {} && ResolveReached(w, dayOf, id) && Resolvable(w.incidents[id], cutoff, dayOf))))
  }

  /** The whole maintenance: retire and then resolve, in one script that a halting expectation stops, then archive. */
  ghost function Maintained(w: World, cutoff: int, dayOf: DayOf): World {
    var retired := AfterRetire(w, cutoff, dayOf);
    AfterArchive(if RetireHalting(w.expectations, dayOf) == {} then AfterResolve(retired, cutoff, dayOf) else retired)
  }

  lemma RetiredCalls(f: ManifestFile, key: string, id: string, cutoff: int, dayOf: DayOf)
    ensures Calls(RetireOne(f, cutoff, dayOf), key, id) <==> Calls(f, key, id) && !Retires(f, cutoff, dayOf)
  {
  }

  /** Retiring silences a name exactly when every expectation that calls for it is reached and past the cutoff. */
  lemma RetireQuietsIff(w: World, id: string, cutoff: int, dayOf: DayOf)
    ensures Quiet(AfterRetire(w, cutoff, dayOf), id) <==>
            forall key :: key in w.expectations && Calls(w.expectations[key], key, id) ==>
              RetireReached(w, dayOf, key) && Retires(w.expectations[key], cutoff, dayOf)
  {
    var r := AfterRetire(w, cutoff, dayOf);
    forall key | key in w.expectations
      ensures Calls(r.expectations[key], key, id) <==>
              Calls(w.expectations[key], key, id) && !(RetireReached(w, dayOf, key) && Retires(w.expectations[key], cutoff, dayOf)) {
      RetiredCalls(w.expectations[key], key, id, cutoff, dayOf);
    }
    hide Calls, Retires, RetireReached, RetireOne;
  }

  lemma ResolveKeepsGarbled(w: World, cutoff: int, dayOf: DayOf)
    ensures AfterResolve(w, cutoff, dayOf).incidents.Keys == w.incidents.Keys
    ensures Garbled(AfterResolve(w, cutoff, dayOf).incidents) == Garbled(w.incidents)
  {
    hide ResolveOne, ResolveReached;
    var r := AfterResolve(w, cutoff, dayOf);
    forall key | key in w.incidents ensures key in Garbled(r.incidents) <==> key in Garbled(w.incidents) {
      ResolveKeepsReading(w.incidents[key], cutoff, dayOf);
    }
  }

  lemma ResolveKeepsReading(f: IncidentFile, cutoff: int, dayOf: DayOf)
    ensures var r := ResolveOne(f, cutoff, dayOf); r.Undecodable? == f.Undecodable? && r.TooDeep? == f.TooDeep?
  {
    ResolveOneIs(f, cutoff, dayOf);
    hide Resolvable, ResolveOne;
  }

  lemma ResolvedIff(f: IncidentFile, cutoff: int, dayOf: DayOf)
    ensures Resolved(ResolveOne(f, cutoff, dayOf)) <==> Resolved(f) || Resolvable(f, cutoff, dayOf)
  {
    assert RESOLVED[0] == 'R';
  }

  lemma MovedIff(w: World, id: string)
    ensures id !in AfterArchive(w).incidents <==> id !in w.incidents || Movable(w.incidents, id)
    ensures id in w.incidents && Movable(w.incidents, id) ==>
              id in AfterArchive(w).archive && AfterArchive(w).archive[id] == w.incidents[id]
    ensures AfterArchive(w).expectations == w.expectations
  {
    hide Movable;
  }

  /**
    Maintenance silences and clears a name exactly when it is recoverable, and then
    its record is in the archive, resolved.
   */
  lemma MaintenanceClearsIff(w: World, id: string, cutoff: int, dayOf: DayOf)
    ensures var m := Maintained(w, cutoff, dayOf); Quiet(m, id) && id !in m.incidents <==> Recoverable(w, id, cutoff, dayOf)
    ensures Recoverable(w, id, cutoff, dayOf) && id in w.incidents ==>
              id in Maintained(w, cutoff, dayOf).archive && Resolved(Maintained(w, cutoff, dayOf).archive[id])
  {
    var retired := AfterRetire(w, cutoff, dayOf);
    var resolved := if RetireHalting(w.expectations, dayOf) == {} then AfterResolve(retired, cutoff, dayOf) else retired;
    RetireQuietsIff(w, id, cutoff, dayOf);
    ResolveKeepsGarbled(retired, cutoff, dayOf);
    if id in w.incidents {
      ResolvedIff(w.incidents[id], cutoff, dayOf);
    }
    hide RetireOne, Retires, Calls, Reached, RetireReached, Resolvable, Resolved, ResolveOne, RetireHalting, ResolveHalting, Garbled;
    MovedIff(resolved, id);
    assert ResolveReached(retired, dayOf, id) == ResolveReached(w, dayOf, id);
    assert resolved.expectations == retired.expectations && Quiet(AfterArchive(resolved), id) == Quiet(retired, id);
    hide AfterArchive, Quiet, AfterRetire, ResolveReached;
  }

  /**
    After retire, resolve and archive, no tick or other step recreates the incident,
    for ever, as long as its run is not registered again; its record is kept.
   */
  lemma MaintenanceIsFinal(w: World, id: string, cutoff: int, dayOf: DayOf, steps: seq<Step>)
    requires Recoverable(w, id, cutoff, dayOf) && PossibleRun(Maintained(w, cutoff, dayOf), steps)
    requires forall s :: s in steps ==> !(s.RegisterStep? && s.id == id)
    ensures id !in AfterAll(Maintained(w, cutoff, dayOf), steps).incidents
    ensures id in w.incidents ==> id in AfterAll(Maintained(w, cutoff, dayOf), steps).archive
  {
    MaintenanceClearsIff(w, id, cutoff, dayOf);
    hide Maintained, Quiet, Recoverable;
    QuietForEver(Maintained(w, cutoff, dayOf), steps, id);
    if id in w.incidents {
      EvidenceIsKept(Maintained(w, cutoff, dayOf), steps, id);
    }
  }

  /**
    Registering the run again is what undoes it: the next tick files the incident
    exactly when the tick gets to the new registration and finds it alarming.
   */
  lemma RegistrationReopensIff(w: World, id: string, at: int, tick: Step)
    requires Quiet(w, id) && id !in w.incidents && Registrable(w, id, at) && tick.TickStep? && Possible(w, tick)
    ensures var again := After(w, RegisterStep(id, at));
            id in After(again, tick).incidents <==>
              TickReached(again, tick, id) && AlarmingAt(again, id, at, tick)
  {
    var again := After(w, RegisterStep(id, at));
    TickIff(again, tick, id);
    forall key | key in again.expectations && Flagged(again, key, tick.checkedAt, tick.grace).Some?
                 && Flagged(again, key, tick.checkedAt, tick.grace).value.0 == id
      ensures key == id {
      FlaggedCalls(again, key, tick.checkedAt, tick.grace);
      if key != id { QuietElsewhere(w, key, id); }
    }
    if TickReached(again, tick, id) {
      ReachedIsNotHalting(again.expectations.Keys, Halting(again, tick.checkedAt, tick.grace), EXPECTATION_FILE, id);
      HaltingIff(again, id, tick.checkedAt, tick.grace);
    }
    assert again.expectations[id] == NewExpectation(id, at);
    hide Reached, Checked, Quiet, Calls, Scannable, Scanned, Halting;
  }

  predicate AlarmingAt(w: World, id: string, at: int, tick: Step)
    requires tick.TickStep?
  {
    var v := Checked(w, id, at, 0, tick.checkedAt, tick.grace);
    v.Success? && Alarming(v.value)
  }

  lemma QuietElsewhere(w: World, key: string, id: string)
    requires Quiet(w, id) && key in w.expectations
    ensures !Calls(w.expectations[key], key, id)
  {
  }

  /** So maintenance is not final once a run without an acknowledgement is registered again and nothing stops the tick. */
  lemma MaintenanceIsUndone(w: World, id: string, cutoff: int, dayOf: DayOf, at: int, tick: Step)
    requires var m := Maintained(w, cutoff, dayOf);
             && Recoverable(w, id, cutoff, dayOf) && Registrable(m, id, at) && id !in w.acks
             && tick.TickStep? && InRange(tick.checkedAt) && 0 <= tick.grace && at + tick.grace < tick.checkedAt
             && Halting(After(m, RegisterStep(id, at)), tick.checkedAt, tick.grace) == {}
    ensures var m := Maintained(w, cutoff, dayOf);
            && id !in m.incidents && PossibleRun(m, [RegisterStep(id, at), tick])
            && id in AfterAll(m, [RegisterStep(id, at), tick]).incidents
  {
    var m := Maintained(w, cutoff, dayOf);
    MaintenanceClearsIff(w, id, cutoff, dayOf);
    MaintenanceKeeps(w, cutoff, dayOf);
    hide Maintained, Quiet, Recoverable, Halting;
    Reopened(m, id, at, tick);
    hide After, Registrable;
    TwoSteps(m, RegisterStep(id, at), tick);
  }

  lemma Reopened(w: World, id: string, at: int, tick: Step)
    requires Quiet(w, id) && id !in w.incidents && Registrable(w, id, at) && id !in w.acks
    requires tick.TickStep? && InRange(tick.checkedAt) && 0 <= tick.grace && at + tick.grace < tick.checkedAt
    requires Halting(After(w, RegisterStep(id, at)), tick.checkedAt, tick.grace) == {}
    ensures id in After(After(w, RegisterStep(id, at)), tick).incidents
  {
    var again := After(w, RegisterStep(id, at));
    RegistrationReopensIff(w, id, at, tick);
    AllReached(again.expectations.Keys, EXPECTATION_FILE, id);
    HaltingIff(again, id, tick.checkedAt, tick.grace);
    assert again.expectations[id] == NewExpectation(id, at);
    hide Quiet, Reached, Scannable, Scanned, Halting;
  }

  lemma TwoSteps(w: World, a: Step, b: Step)
    requires Possible(w, a) && Possible(After(w, a), b)
    ensures PossibleRun(w, [a, b]) && AfterAll(w, [a, b]) == After(After(w, a), b)
  {
    hide After, Possible;
    assert [a, b][1..] == [b] && [b][1..] == [];
    var end := After(After(w, a), b);
    assert PossibleRun(end, []) && AfterAll(end, []) == end;
    assert PossibleRun(After(w, a), [b]) && AfterAll(After(w, a), [b]) == end;
  }

  lemma MaintenanceKeeps(w: World, cutoff: int, dayOf: DayOf)
    ensures Maintained(w, cutoff, dayOf).acks == w.acks
  {
    hide RetireReached, ResolveReached, Resolved, ResolveOne, Movable;
  }

  /**
    Archiving alone is not enough: the next tick recreates an archived incident
    exactly when some expectation that the tick gets to still calls for it.
   */
  lemma ArchivedIsRecreatedIff(w: World, tick: Step, id: string)
    requires Movable(w.incidents, id) && tick.TickStep? && Possible(w, tick)
    ensures id !in AfterArchive(w).incidents
    ensures var a := AfterArchive(w);
            id in After(a, tick).incidents <==>
              exists key :: key in w.expectations && TickReached(a, tick, key)
                            && Flagged(a, key, tick.checkedAt, tick.grace).Some?
                            && Flagged(a, key, tick.checkedAt, tick.grace).value.0 == id
  {
    var a := AfterArchive(w);
    TickIff(a, tick, id);
    MovedIff(w, id);
    hide Movable, AfterArchive, Scannable, Flagged, TickReached, After;
  }

  /**
    An archived record survives later archiving unless an incident of the same name
    was recreated and resolved in between: then the later record replaces it.
   */
  lemma ArchiveReplaces(w: World, id: string)
    requires id in w.archive
    ensures id in AfterArchive(w).archive
    ensures AfterArchive(w).archive[id] == if id in w.incidents && Movable(w.incidents, id) then w.incidents[id] else w.archive[id]
  {
    hide Movable;
  }
}
