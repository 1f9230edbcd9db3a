/** What the watchdog's steps write, field by field. */
module WatchdogRecords {
  import opened Common
  import opened Schedule
  import opened Ordering
  import opened Watchdog
  import C = Calendar

  // ----------------------------------------------------------------- verdicts

  /** An acknowledgement that can be held against its run. */
  predicate Readable(ack: AckFile) {
    ack.AckPayload? && ack.acknowledgedAt.Aware? && ack.scheduledFor.Aware? && ack.schemaVersion == 1 && ack.status == "STARTED"
  }

  /** An acknowledgement of this run whose times the host's calendar holds. */
  predicate Concerns(ack: AckFile, at: int, id: string) {
    Readable(ack) && ack.runId == id && InRange(ack.scheduledFor.us) && InRange(at)
  }

  /** When each verdict is the right one. */
  predicate Merits(v: Verdict, ack: AckFile, at: int, zone: int, checkedAt: int, grace: int, id: string) {
    match v
    case SCHEDULED_RUN_MISSED => ack.NoFile? && at + zone + grace <= LATEST && at + grace < checkedAt
    case START_ACK_PENDING => ack.NoFile? && at + zone + grace <= LATEST && checkedAt <= at + grace
    case START_ACK_INVALID => ack.Unreadable? || (ack.AckPayload? && !Readable(ack))
    case START_ACK_RUN_ID_MISMATCH => Readable(ack) && ack.runId != id
    case START_ACK_SCHEDULE_MISMATCH => Concerns(ack, at, id) && ack.scheduledFor.us != at
    case START_ACK_LATE => Concerns(ack, at, id) && ack.scheduledFor.us == at && at + grace < ack.acknowledgedAt.us
    case START_ACK_VALID => Concerns(ack, at, id) && ack.scheduledFor.us == at && ack.acknowledgedAt.us <= at + grace
    case SCHEDULER_EXPECTATION_INVALID => false
  }

  /** Every verdict is given exactly when it is the right one, and the check fails only beyond the calendar or the parser. */
  lemma VerdictIff(ack: AckFile, at: int, zone: int, checkedAt: int, grace: int, id: string, v: Verdict)
    ensures var r := EvaluateStartAck(ack, at, zone, checkedAt, grace, id);
            && (r == Success(v) <==> Merits(v, ack, at, zone, checkedAt, grace, id))
            && (r == Failure(RECURSION_ERROR) <==> ack.TooNested?)
            && (r == Failure(OVERFLOW_ERROR) <==>
                  || (ack.NoFile? && LATEST < at + zone + grace)
                  || (Readable(ack) && ack.runId == id && (!InRange(ack.scheduledFor.us) || !InRange(at))))
  {
  }

  // ---------------------------------------------------------------- incidents

  /** A manifest that can be acted on, spelled out. */
  predicate Acts(f: ManifestFile) {
    && f.Record? && f.value.schemaVersion == 1 && f.value.status == "EXPECTED" && f.value.runId.Some?
    && f.value.scheduledFor.Some? && f.value.scheduledFor.value.Aware?
  }

  predicate Shelved(f: ManifestFile) {
    f.Record? && f.value.schemaVersion == 1 && f.value.status == "RETIRED_INCIDENT_RETAINED"
  }

  function AckIn(w: World, id: string): AckFile {
    if id in w.acks then w.acks[id] else NoFile
  }

  /** The incident that an expectation calls for: its name and its whole record. */
  ghost predicate CallsFor(w: World, key: string, checkedAt: int, grace: int, id: string, record: IncidentFile)
    requires key in w.expectations
  {
    var f := w.expectations[key];
    && !Shelved(f)
    && if !Acts(f) then
         id == key && record == Record(Incident(Some(key), Some(Aware(checkedAt)), SCHEDULER_EXPECTATION_INVALID, None))
       else
         && id == f.value.runId.value
         && exists v :: v != START_ACK_VALID && v != START_ACK_PENDING
                        && Merits(v, AckIn(w, id), f.value.scheduledFor.value.us, f.value.zone, checkedAt, grace, id)
                        && record == Record(Incident(Some(id), Some(Aware(checkedAt)), v, None))
  }

  lemma FlaggedIff(w: World, key: string, checkedAt: int, grace: int, id: string, record: IncidentFile)
    requires key in w.expectations && key !in Halting(w, checkedAt, grace)
    ensures Flagged(w, key, checkedAt, grace) == Some((id, record)) <==> CallsFor(w, key, checkedAt, grace, id, record)
  {
    HaltingIff(w, key, checkedAt, grace);
    var f := w.expectations[key];
    hide Halting, Merits, EvaluateStartAck, FilingFails;
    if Usable(f) {
      var run := f.value.runId.value;
      var at := f.value.scheduledFor.value.us;
      forall v ensures EvaluateStartAck(AckOf(w.acks, run), at, f.value.zone, checkedAt, grace, run) == Success(v)
                       <==> Merits(v, AckIn(w, run), at, f.value.zone, checkedAt, grace, run) {
        VerdictIff(AckOf(w.acks, run), at, f.value.zone, checkedAt, grace, run, v);
      }
    }
  }

  predicate Silent(w: World, key: string, checkedAt: int, grace: int, id: string)
    requires key in w.expectations
  {
    Flagged(w, key, checkedAt, grace).Some? ==> Flagged(w, key, checkedAt, grace).value.0 != id
  }

  /** The first of a list of expectations that calls for an incident under a name. */
  ghost predicate FirstCall(w: World, listing: seq<string>, i: int, checkedAt: int, grace: int, id: string, record: IncidentFile)
    requires forall key :: key in listing ==> key in w.expectations
  {
    && 0 <= i < |listing| && Flagged(w, listing[i], checkedAt, grace) == Some((id, record))
    && forall j :: 0 <= j < i ==> Silent(w, listing[j], checkedAt, grace, id)
  }

  lemma {:induction false} ScannedRecords(w: World, listing: seq<string>, checkedAt: int, grace: int, id: string)
    requires (forall key :: key in listing ==> key in w.expectations) && id !in w.incidents
    ensures var after := Scanned(w, listing, checkedAt, grace);
            if id in after then exists i :: FirstCall(w, listing, i, checkedAt, grace, id, after[id])
            else forall j :: 0 <= j < |listing| ==> Silent(w, listing[j], checkedAt, grace, id)
  {
    hide Flagged;
    if listing != [] {
      var n := |listing| - 1;
      var front := listing[..n];
      ScannedRecords(w, front, checkedAt, grace, id);
      assert forall j :: 0 <= j < n ==> front[j] == listing[j];
      var before, after := Scanned(w, front, checkedAt, grace), Scanned(w, listing, checkedAt, grace);
      if id in before {
        var i :| FirstCall(w, front, i, checkedAt, grace, id, before[id]);
        assert after[id] == before[id];
        assert FirstCall(w, listing, i, checkedAt, grace, id, after[id]);
      } else if id in after {
        assert FirstCall(w, listing, n, checkedAt, grace, id, after[id]);
      }
    }
  }

  /**
    The incident that a tick files under a new name: of the first expectation in file
    order, among those the scan reached, that calls for one under it, with the run, the
    time of the check, the verdict it merits, and no resolution.
   */
  lemma TickRecords(w: World, tick: Step, id: string)
    requires tick.TickStep? && Possible(w, tick) && id !in w.incidents && id in After(w, tick).incidents
    ensures var listing := Scannable(w, tick.checkedAt, tick.grace);
            exists i :: 0 <= i < |listing|
                        && CallsFor(w, listing[i], tick.checkedAt, tick.grace, id, After(w, tick).incidents[id])
                        && forall j, r :: 0 <= j < i ==> !CallsFor(w, listing[j], tick.checkedAt, tick.grace, id, r)
  {
    var t, grace := tick.checkedAt, tick.grace;
    var listing, after := Scannable(w, t, grace), After(w, tick).incidents;
    assert after == Scanned(w, listing, t, grace);
    hide Scanned, Flagged, CallsFor, Halting, After, Scannable, Reached, FirstCall;
    ScannedRecords(w, listing, t, grace, id);
    forall key | key in listing ensures key !in Halting(w, t, grace) {
      ReachedIsNotHalting(w.expectations.Keys, Halting(w, t, grace), EXPECTATION_FILE, key);
    }
    var i :| FirstCall(w, listing, i, t, grace, id, after[id]);
    FirstCallIs(w, listing, i, t, grace, id, after[id]);
  }

  lemma FirstCallIs(w: World, listing: seq<string>, i: int, checkedAt: int, grace: int, id: string, record: IncidentFile)
    requires forall key :: key in listing ==> key in w.expectations && key !in Halting(w, checkedAt, grace)
    requires FirstCall(w, listing, i, checkedAt, grace, id, record)
    ensures 0 <= i < |listing| && CallsFor(w, listing[i], checkedAt, grace, id, record)
    ensures forall j, r :: 0 <= j < i ==> !CallsFor(w, listing[j], checkedAt, grace, id, r)
  {
    hide Flagged, CallsFor, Halting;
    FlaggedIff(w, listing[i], checkedAt, grace, id, record);
    forall j, r | 0 <= j < i ensures !CallsFor(w, listing[j], checkedAt, grace, id, r) {
      assert listing[j] in listing;
      FlaggedIff(w, listing[j], checkedAt, grace, id, r);
    }
  }

  // -------------------------------------------------------------------- steps

  /** A registration stores one expectation in UTC, an acknowledgement one start; nothing else changes. */
  lemma RecordsWritten(w: World, id: string, at: int, acknowledgedAt: int)
    ensures Registrable(w, id, at) ==>
              After(w, RegisterStep(id, at))
              == World(w.expectations[id := Record(Manifest(1, "EXPECTED", Some(id), Some(Aware(at)), 0))], w.acks, w.incidents, w.archive, w.disk)
    ensures Acknowledgeable(w, id, at, acknowledgedAt) ==>
              After(w, AckStep(id, at, acknowledgedAt))
              == World(w.expectations, w.acks[id := AckPayload(1, "STARTED", id, Aware(at), Aware(acknowledgedAt))], w.incidents, w.archive, w.disk)
    ensures Registrable(w, id, at) <==>
              && id != "" && (forall i :: 0 <= i < |id| ==>
                   'a' <= id[i] <= 'z' || 'A' <= id[i] <= 'Z' || '0' <= id[i] <= '9' || id[i] == '-' || id[i] == '_')
              && EARLIEST <= at <= LATEST && w.disk.writes(id + ".expected.json")
    ensures Acknowledgeable(w, id, at, acknowledgedAt) <==>
              && id != "" && (forall i :: 0 <= i < |id| ==>
                   'a' <= id[i] <= 'z' || 'A' <= id[i] <= 'Z' || '0' <= id[i] <= '9' || id[i] == '-' || id[i] == '_')
              && EARLIEST <= at <= LATEST && EARLIEST <= acknowledgedAt <= LATEST && w.disk.writes(id + ".start.json")
  {
  }

  /** Retiring changes the status of an active expectation dated before the cutoff, and nothing else anywhere. */
  lemma RetireWrites(w: World, cutoff: int, dayOf: DayOf, key: string)
    requires key in w.expectations
    ensures var after := After(w, RetireStep(cutoff, dayOf));
            && after.expectations.Keys == w.expectations.Keys
            && after == w.(expectations := after.expectations)
            && var f := w.expectations[key];
               after.expectations[key] ==
                 if Reached(w.expectations.Keys, RetireHalting(w.expectations, dayOf), ".expected.json", key)
                    && f.Record? && f.value.status == "EXPECTED" && f.value.scheduledFor.Some?
                    && dayOf(f.value.scheduledFor.value).Some? && dayOf(f.value.scheduledFor.value).value < cutoff
                 then Record(Manifest(f.value.schemaVersion, "RETIRED_INCIDENT_RETAINED", f.value.runId, f.value.scheduledFor, f.value.zone))
                 else f
  {
    hide Reached, RetireHalting;
  }

  /** Resolving documents an open incident of a day before the cutoff, and changes nothing else anywhere. */
  lemma ResolveWrites(w: World, cutoff: int, dayOf: DayOf, key: string)
    requires key in w.incidents
    ensures var after := After(w, ResolveStep(cutoff, dayOf));
            && after.incidents.Keys == w.incidents.Keys
            && after == w.(incidents := after.incidents)
            && var f := w.incidents[key];
               after.incidents[key] ==
                 if Reached(w.incidents.Keys, ResolveHalting(w.incidents, dayOf), ".scheduler-incident.json", key) && Open(f)
                    && IncidentDay(f.value, dayOf).Some? && IncidentDay(f.value, dayOf).value < cutoff
                 then Record(Incident(f.value.runId, f.value.detectedAt, f.value.verdict, Some("RESOLVED_ROOT_CAUSE_DOCUMENTED")))
                 else f
  {
    hide Reached, ResolveHalting, IncidentDay;
  }

  /** An incident without a documented resolution. */
  predicate Open(f: IncidentFile) {
    f.Record? && (f.value.resolution.None? || forall i :: 0 <= i < |f.value.resolution.value| ==> IsSpace(f.value.resolution.value[i]))
  }

  /** An incident belongs to the day in its run id, and without one to the day of its detection, which must be known. */
  lemma IncidentDayIs(i: Incident, dayOf: DayOf)
    ensures IncidentDay(i, dayOf).Some? <==> i.detectedAt.Some? && dayOf(i.detectedAt.value).Some?
    ensures IncidentDay(i, dayOf).Some? ==>
              IncidentDay(i, dayOf) == if i.runId.Some? && StampedDay(i.runId.value).Some? then StampedDay(i.runId.value)
                                       else dayOf(i.detectedAt.value)
  {
    hide StampedDay;
  }

  /** Archiving moves the resolved incidents that it reaches, unchanged, and nothing else. */
  lemma ArchiveMoves(w: World, key: string)
    ensures var after := After(w, ArchiveStep);
            && after.expectations == w.expectations && after.acks == w.acks && after.disk == w.disk
            && var moved := key in w.incidents && Reached(w.incidents.Keys, Garbled(w.incidents), ".scheduler-incident.json", key)
                            && w.incidents[key].Record? && !Open(w.incidents[key]);
               && (key in after.incidents <==> key in w.incidents && !moved)
               && (key in after.incidents ==> after.incidents[key] == w.incidents[key])
               && (key in after.archive <==> key in w.archive || moved)
               && (key in after.archive ==> after.archive[key] == if moved then w.incidents[key] else w.archive[key])
  {
    hide Reached, Garbled;
  }

  /** What stops the maintenance scripts: files that are not text or nested too deep, and days off the calendar. */
  lemma MaintenanceHaltsIff(w: World, dayOf: DayOf, key: string)
    ensures key in Garbled(w.incidents) <==> key in w.incidents && (w.incidents[key].Undecodable? || w.incidents[key].TooDeep?)
    ensures key in RetireHalting(w.expectations, dayOf) <==>
              && key in w.expectations
              && var f := w.expectations[key];
                 || f.Undecodable? || f.TooDeep?
                 || (f.Record? && f.value.status == "EXPECTED" && f.value.scheduledFor.Some? && dayOf(f.value.scheduledFor.value).None?)
    ensures key in ResolveHalting(w.incidents, dayOf) <==>
              && key in w.incidents
              && var f := w.incidents[key];
                 f.Undecodable? || f.TooDeep? || (Open(f) && f.value.detectedAt.Some? && dayOf(f.value.detectedAt.value).None?)
  {
  }

  /** An incident is shown under the run it names, and under its file's name if it names none. */
  lemma ShownIs(key: string, f: IncidentFile)
    ensures f.Record? && f.value.runId.Some? && |f.value.runId.value| > 0 ==> Shown(key, f) == f.value.runId.value
    ensures !f.Record? || f.value.runId == None || f.value.runId == Some("") ==> Shown(key, f) == key + ".scheduler-incident.json"
  {
  }

  // ------------------------------------------------------------- stamps in ids

  /** A part of the id between dashes. */
  predicate Token(id: string, a: int, b: int) {
    && 0 <= a <= b <= |id| && (a == 0 || id[a - 1] == '-') && (b == |id| || id[b] == '-')
    && forall k :: a <= k < b ==> id[k] != '-'
  }

  predicate Stamped(id: string, a: int, b: int)
    requires 0 <= a <= b <= |id|
  {
    b - a == 8 && forall k :: a <= k < b ==> '0' <= id[k] <= '9'
  }

  ghost predicate FirstFrom(id: string, start: int, a: int, b: int) {
    && start <= a && Token(id, a, b) && Stamped(id, a, b)
    && forall c, d :: start <= c < a && Token(id, c, d) ==> !Stamped(id, c, d)
  }

  ghost predicate NoneFrom(id: string, start: int) {
    forall a, b :: start <= a && Token(id, a, b) ==> !Stamped(id, a, b)
  }

  lemma StampedIff(id: string, a: int, b: int)
    requires 0 <= a <= b <= |id|
    ensures IsStamp(id[a..b]) <==> Stamped(id, a, b)
  {
    if IsStamp(id[a..b]) {
      assert forall k :: a <= k < b ==> id[k] == id[a..b][k - a];
    }
  }

  /** Reading on from inside a token finds the first stamp from its start on. */
  lemma {:induction false} FirstStampFrom(id: string, start: nat, i: nat)
    requires start <= i <= |id| && (start == 0 || id[start - 1] == '-') && forall k :: start <= k < i ==> id[k] != '-'
    ensures var r := FirstStamp(id, start, i);
            if r.None? then NoneFrom(id, start) else exists a, b :: FirstFrom(id, start, a, b) && r.value == id[a..b]
    decreases |id| - i
  {
    hide IsStamp;
    if i < |id| && id[i] != '-' {
      FirstStampFrom(id, start, i + 1);
      return;
    }
    StampedIff(id, start, i);
    assert Token(id, start, i);
    forall b | Token(id, start, b) ensures b == i {
      TokenEndsOnce(id, start, i, b);
    }
    if Stamped(id, start, i) {
      assert FirstFrom(id, start, start, i);
    } else if i < |id| {
      FirstStampFrom(id, i + 1, i + 1);
      forall a, b | start < a && Token(id, a, b) ensures i + 1 <= a {
      }
      hide Stamped;
      if !NoneFrom(id, i + 1) {
        var a, b :| FirstFrom(id, i + 1, a, b) && FirstStamp(id, i + 1, i + 1).value == id[a..b];
        assert FirstFrom(id, start, a, b);
      }
    }
  }

  lemma TokenEndsOnce(id: string, a: int, b: int, c: int)
    requires Token(id, a, b) && Token(id, a, c)
    ensures b == c
  {
  }

  /** The day stamped in an id is that of its first part of eight digits, if these are a date. */
  lemma StampedDayIs(id: string)
    ensures NoneFrom(id, 0) ==> StampedDay(id).None?
    ensures !NoneFrom(id, 0) ==>
              exists a, b :: FirstFrom(id, 0, a, b)
                && var d := C.Date(Number(id[a..a + 4]), Number(id[a + 4..a + 6]), Number(id[a + 6..b]));
                   StampedDay(id) == if C.Valid(d) && 1 <= d.year then Some(C.Ordinal(d)) else None
  {
    FirstStampFrom(id, 0, 0);
    hide FirstStamp, FirstFrom, Number, C.Valid, C.Ordinal;
    if !NoneFrom(id, 0) {
      FirstExcludesNone(id);
      var a, b :| FirstFrom(id, 0, a, b) && FirstStamp(id, 0, 0).value == id[a..b];
      Pieces(id, a, b);
    }
  }

  lemma FirstExcludesNone(id: string)
    ensures !NoneFrom(id, 0) ==> !(FirstStamp(id, 0, 0).None?)
  {
    FirstStampFrom(id, 0, 0);
    hide FirstStamp;
  }

  lemma Pieces(id: string, a: int, b: int)
    requires FirstFrom(id, 0, a, b)
    ensures 0 <= a && b == a + 8 <= |id|
    ensures var s := id[a..b]; s[..4] == id[a..a + 4] && s[4..6] == id[a + 4..a + 6] && s[6..] == id[a + 6..b]
    ensures forall k :: a <= k < b ==> IsDigit(id[k])
  {
    SliceOfSlice(id, a, b, 0, 4);
    SliceOfSlice(id, a, b, 4, 6);
    SliceOfSlice(id, a, b, 6, 8);
    var s := id[a..b];
    assert s[..4] == s[0..4] && s[6..] == s[6..8];
  }

  lemma SliceOfSlice(id: string, a: int, b: int, c: int, d: int)
    requires 0 <= a <= b <= |id| && 0 <= c <= d <= b - a
    ensures id[a..b][c..d] == id[a + c..a + d]
  {
    forall k | 0 <= k < d - c ensures id[a..b][c..d][k] == id[a + c..a + d][k] {
    }
  }
}
