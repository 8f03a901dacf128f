/**
 * The job details screen's logic (app/job-details.tsx): which job it shows
 * for the route's id, and how it trims the distance and time texts.
 */
module JobDetails {
  import opened Wrappers
  import opened Strings

  datatype JobStatus = Available | Current | Completed | Cancelled

  /** A job offer as the job screens list it. */
  datatype Job = Job(
    id: string,
    pickupLocation: string,
    pickupAddress: string,
    dropoffLocation: string,
    dropoffAddress: string,
    distance: string,
    estimatedTime: string,
    price: real,
    tags: seq<string>,
    status: JobStatus)

  /** The index of the first job with the given id, as `find` scans for it. */
  function FindJobIndex(jobs: seq<Job>, id: string): (r: Option<nat>)
    ensures r.Some? ==> r.value < |jobs| && jobs[r.value].id == id &&
                        forall j :: 0 <= j < r.value ==> jobs[j].id != id
    ensures r.None? ==> forall j :: 0 <= j < |jobs| ==> jobs[j].id != id
    decreases |jobs|
  {
    if |jobs| == 0 then None
    else if jobs[0].id == id then Some(0)
    else match FindJobIndex(jobs[1..], id)
      case None => None
      case Some(i) => Some(i + 1)
  }

  /** `jobs.find(j => j.id === jobId) || jobs[0]`; None stands for `undefined` when the list is empty. */
  function JobToShow(jobs: seq<Job>, id: string): (r: Option<Job>)
    ensures r.None? <==> |jobs| == 0
    ensures r.Some? ==> r.value in jobs
  {
    match FindJobIndex(jobs, id)
    case Some(i) => Some(jobs[i])
    case None => if |jobs| > 0 then Some(jobs[0]) else None
  }

  /** The job shown is the first one with the route's id, when there is one. */
  lemma ShowsFirstMatchingJob(jobs: seq<Job>, id: string, i: nat)
    requires i < |jobs| && jobs[i].id == id
    requires forall j :: 0 <= j < i ==> jobs[j].id != id
    ensures JobToShow(jobs, id) == Some(jobs[i])
  {
  }

  /** Without a match, the first job of the list is shown. */
  lemma ShowsFirstJobWithoutMatch(jobs: seq<Job>, id: string)
    requires |jobs| > 0
    requires forall j :: 0 <= j < |jobs| ==> jobs[j].id != id
    ensures JobToShow(jobs, id) == Some(jobs[0])
  {
  }

  /**
   * `distance.split(' ')[0]`: the text before the first space, or the
   * whole text when it has none.
   */
  function DistanceFigure(distance: string): (r: string)
    ensures r <= distance && ' ' !in r
    ensures r == distance || distance[|r|] == ' '
  {
    BeforeFirstChar(distance, ' ');
    BeforeFirst(distance, " ")
  }

  /**
   * `estimatedTime.replace('~', '').replace(' min', '')`: at most one '~'
   * and one " min" are cut out, and a text with neither is shown as it is.
   */
  function MinutesFigure(estimatedTime: string): (r: string)
    ensures ((forall j: nat :: !OccursAt(estimatedTime, "~", j)) &&
             (forall j: nat :: !OccursAt(estimatedTime, " min", j))) ==> r == estimatedTime
    ensures |estimatedTime| - 5 <= |r| <= |estimatedTime|
  {
    RemoveFirst(RemoveFirst(estimatedTime, "~"), " min")
  }

  lemma DistanceExample()
    ensures DistanceFigure("5.2 miles") == "5.2"
  {
    var s := "5.2 miles";
    assert OccursAt(s, " ", 3);
    var r := DistanceFigure(s);
    assert s[0..1] == "5" && s[1..2] == "." && s[2..3] == "2";
    assert |r| <= 3;
    assert r == s[..|r|];
  }

  /** Removing '~' from a text that starts with it drops just that first character. */
  lemma RemoveLeadingTilde(rest: string)
    ensures RemoveFirst("~" + rest, "~") == rest
  {
    var s := "~" + rest;
    assert OccursAt(s, "~", 0);
    assert s[1..] == rest;
  }

  /** Removing " min" from `<figure> min`, with a figure free of spaces, leaves the figure. */
  lemma RemoveMinutesUnit(figure: string)
    requires ' ' !in figure
    ensures RemoveFirst(figure + " min", " min") == figure
  {
    var t := figure + " min";
    assert t[|figure|..] == " min";
    assert OccursAt(t, " min", |figure|);
    forall j: nat | j < |figure| ensures !OccursAt(t, " min", j) {
      assert t[j] == figure[j] != ' ';
      if j + 4 <= |t| {
        assert t[j..j + 4][0] == t[j];
      }
    }
    assert t[..|figure|] + t[|figure| + 4..] == figure;
  }

  /** A time written `~<figure> min`, with a figure free of spaces, shows as the figure alone. */
  lemma MinutesOfApproximateTime(figure: string)
    requires ' ' !in figure
    ensures MinutesFigure("~" + figure + " min") == figure
  {
    var rest := figure + " min";
    assert "~" + figure + " min" == "~" + rest;
    RemoveLeadingTilde(rest);
    RemoveMinutesUnit(figure);
  }

  lemma MinutesExample()
    ensures MinutesFigure("~15 min") == "15"
  {
    var figure := "15";
    var s := "~" + figure + " min";
    assert s == "~15 min";
    MinutesOfApproximateTime(figure);
  }
}
