/** The fail-closed gate in front of every sample a read-only collector supplies. */
module SampleGate {
  import opened Common
  import opened SessionLog

  const MAXIMUM_FUTURE_SKEW := 2 * SECOND
  const MAXIMUM_SAMPLE_AGE := 10 * SECOND

  datatype Sample = Sample(id: string, source: int, received: int)

  ghost predicate Seen(accepted: seq<Sample>, id: string) {
    exists i :: 0 <= i < |accepted| && accepted[i].id == id
  }

  /** The verdict on a sample after the samples accepted so far. */
  ghost function Screen(accepted: seq<Sample>, maximumAge: int, id: string, source: Option<Time>, received: Time): SampleReason {
    if Blank(id) then SAMPLE_ID_MISSING
    else if Seen(accepted, id) then DUPLICATE_SAMPLE
    else if received.Naive? then RECEIVED_TIME_NOT_TIMEZONE_AWARE
    else if source.None? || source.value.Naive? then SOURCE_TIME_UNKNOWN
    else
      var age := received.us - source.value.us;
      if age < -MAXIMUM_FUTURE_SKEW then SOURCE_TIME_TOO_FAR_IN_FUTURE
      else if age > maximumAge then STALE_SAMPLE
      else if accepted != [] && source.value.us <= accepted[|accepted| - 1].source then OUT_OF_ORDER_SAMPLE
      else SAMPLE_ACCEPTED
  }

  ghost function Admit(accepted: seq<Sample>, maximumAge: int, id: string, source: Option<Time>, received: Time): seq<Sample> {
    if Screen(accepted, maximumAge, id, source, received) == SAMPLE_ACCEPTED
    then accepted + [Sample(id, source.value.us, received.us)] else accepted
  }

  /** One gate: it remembers the ids it accepted and the newest source time. */
  class ReadOnlySampleGate {
    const maximumAge: int
    var lastSourceUpdatedAt: Option<int>
    var seenIds: set<string>
    ghost var accepted: seq<Sample>

    ghost predicate Valid()
      reads this
    {
      && (forall id :: id in seenIds <==> Seen(accepted, id))
      && lastSourceUpdatedAt == if accepted == [] then None else Some(accepted[|accepted| - 1].source)
    }

    constructor (maximumAge: int)
      ensures Valid() && accepted == [] && this.maximumAge == maximumAge
    {
      this.maximumAge := maximumAge;
      lastSourceUpdatedAt, seenIds, accepted := None, {}, [];
    }

    method Evaluate(id: string, source: Option<Time>, received: Time) returns (reason: SampleReason)
      requires Valid()
      modifies this
      ensures Valid()
      ensures reason == Screen(old(accepted), maximumAge, id, source, received)
      ensures accepted == Admit(old(accepted), maximumAge, id, source, received)
    {
      if Blank(id) {
        return SAMPLE_ID_MISSING;
      }
      if id in seenIds {
        return DUPLICATE_SAMPLE;
      }
      if received.Naive? {
        return RECEIVED_TIME_NOT_TIMEZONE_AWARE;
      }
      if source.None? || source.value.Naive? {
        return SOURCE_TIME_UNKNOWN;
      }
      var age := received.us - source.value.us;
      if age < -MAXIMUM_FUTURE_SKEW {
        return SOURCE_TIME_TOO_FAR_IN_FUTURE;
      }
      if age > maximumAge {
        return STALE_SAMPLE;
      }
      if lastSourceUpdatedAt.Some? && source.value.us <= lastSourceUpdatedAt.value {
        return OUT_OF_ORDER_SAMPLE;
      }
      ghost var before := accepted;
      accepted := accepted + [Sample(id, source.value.us, received.us)];
      forall x ensures Seen(accepted, x) <==> Seen(before, x) || x == id {
        SeenStep(before, accepted[|before|], x);
      }
      seenIds := seenIds + {id};
      lastSourceUpdatedAt := Some(source.value.us);
      return SAMPLE_ACCEPTED;
    }
  }

  lemma SeenStep(accepted: seq<Sample>, sample: Sample, id: string)
    ensures Seen(accepted + [sample], id) <==> Seen(accepted, id) || id == sample.id
  {
    var longer := accepted + [sample];
    if Seen(accepted, id) {
      var i :| 0 <= i < |accepted| && accepted[i].id == id;
      assert longer[i].id == id;
    }
    if id == sample.id {
      assert longer[|accepted|].id == id;
    }
  }

  /** Unique ids, strictly increasing source times, and every age between two seconds early and the limit. */
  ghost predicate Disciplined(accepted: seq<Sample>, maximumAge: int) {
    && (forall i, j :: 0 <= i < j < |accepted| ==> accepted[i].id != accepted[j].id && accepted[i].source < accepted[j].source)
    && (forall i :: 0 <= i < |accepted| ==> -2_000_000 <= accepted[i].received - accepted[i].source <= maximumAge)
  }

  /** The gate accepts exactly the identified, zoned samples that keep the discipline. */
  lemma AcceptedIff(accepted: seq<Sample>, maximumAge: int, id: string, source: Option<Time>, received: Time)
    requires Disciplined(accepted, maximumAge)
    ensures Screen(accepted, maximumAge, id, source, received) == SAMPLE_ACCEPTED <==>
              && !Blank(id) && received.Aware? && source.Some? && source.value.Aware?
              && Disciplined(accepted + [Sample(id, source.value.us, received.us)], maximumAge)
  {
    if Screen(accepted, maximumAge, id, source, received) == SAMPLE_ACCEPTED {
      AdmitDisciplined(accepted, maximumAge, id, source, received);
    } else if received.Aware? && source.Some? && source.value.Aware? {
      var longer := accepted + [Sample(id, source.value.us, received.us)];
      assert longer[|accepted|] == Sample(id, source.value.us, received.us);
      assert forall i :: 0 <= i < |accepted| ==> longer[i] == accepted[i];
    }
  }

  /** What stands against a sample, each cause on its own, the gravest first. */
  ghost predicate Against(r: SampleReason, accepted: seq<Sample>, maximumAge: int, id: string, source: Option<Time>, received: Time) {
    match r
    case SAMPLE_ID_MISSING => Blank(id)
    case DUPLICATE_SAMPLE => exists i :: 0 <= i < |accepted| && accepted[i].id == id
    case RECEIVED_TIME_NOT_TIMEZONE_AWARE => received.Naive?
    case SOURCE_TIME_UNKNOWN => source.None? || source.value.Naive?
    case SOURCE_TIME_TOO_FAR_IN_FUTURE => received.Aware? && source.Some? && source.value.Aware? && received.us + 2_000_000 < source.value.us
    case STALE_SAMPLE => received.Aware? && source.Some? && source.value.Aware? && source.value.us + maximumAge < received.us
    case OUT_OF_ORDER_SAMPLE =>
      source.Some? && source.value.Aware? && exists i :: 0 <= i < |accepted| && source.value.us <= accepted[i].source
    case SAMPLE_ACCEPTED => true
  }

  const GRAVEST_FIRST := [SAMPLE_ID_MISSING, DUPLICATE_SAMPLE, RECEIVED_TIME_NOT_TIMEZONE_AWARE, SOURCE_TIME_UNKNOWN,
                          SOURCE_TIME_TOO_FAR_IN_FUTURE, STALE_SAMPLE, OUT_OF_ORDER_SAMPLE, SAMPLE_ACCEPTED]

  /** The verdict is the gravest cause that stands against the sample, and acceptance when none does. */
  lemma GravestIsGiven(accepted: seq<Sample>, maximumAge: int, id: string, source: Option<Time>, received: Time)
    requires Disciplined(accepted, maximumAge)
    ensures var r := Screen(accepted, maximumAge, id, source, received);
            exists k :: 0 <= k < 8 && GRAVEST_FIRST[k] == r && Against(r, accepted, maximumAge, id, source, received)
                        && forall j :: 0 <= j < k ==> !Against(GRAVEST_FIRST[j], accepted, maximumAge, id, source, received)
  {
    var r := Screen(accepted, maximumAge, id, source, received);
    if source.Some? && source.value.Aware? {
      NewestIsLast(accepted, maximumAge, source.value.us);
    }
    hide Disciplined;
    var k := match r
      case SAMPLE_ID_MISSING => 0
      case DUPLICATE_SAMPLE => 1
      case RECEIVED_TIME_NOT_TIMEZONE_AWARE => 2
      case SOURCE_TIME_UNKNOWN => 3
      case SOURCE_TIME_TOO_FAR_IN_FUTURE => 4
      case STALE_SAMPLE => 5
      case OUT_OF_ORDER_SAMPLE => 6
      case SAMPLE_ACCEPTED => 7;
    assert GRAVEST_FIRST[k] == r;
  }

  lemma NewestIsLast(accepted: seq<Sample>, maximumAge: int, time: int)
    requires Disciplined(accepted, maximumAge)
    ensures (exists i :: 0 <= i < |accepted| && time <= accepted[i].source)
            <==> accepted != [] && time <= accepted[|accepted| - 1].source
  {
    if i :| 0 <= i < |accepted| && time <= accepted[i].source {
      assert accepted[i].source <= accepted[|accepted| - 1].source;
    }
  }

  /** Whatever is offered next, the accepted samples stay disciplined and are never rewritten. */
  lemma AdmitDisciplined(accepted: seq<Sample>, maximumAge: int, id: string, source: Option<Time>, received: Time)
    requires Disciplined(accepted, maximumAge)
    ensures Disciplined(Admit(accepted, maximumAge, id, source, received), maximumAge)
    ensures accepted <= Admit(accepted, maximumAge, id, source, received)
  {
    var after := Admit(accepted, maximumAge, id, source, received);
    if after != accepted {
      assert !Seen(accepted, id);
      forall i | 0 <= i < |accepted| ensures accepted[i].id != id && accepted[i].source < after[|accepted|].source {
        if i < |accepted| - 1 {
          assert accepted[i].source < accepted[|accepted| - 1].source;
        }
      }
    }
  }
}
