/**
 * The job-seeker's swipe deck: open jobs are fetched with their employer's
 * name and e-mail; the job at `currentIndex` is shown as a card; a swipe
 * right applies, a swipe left ignores, and either moves to the next card.
 */
module JobCard {
  import opened Wrappers
  import opened Text
  import opened Gesture

  /** A row of the `jobs` table, as far as the deck uses it. */
  datatype JobRow = JobRow(id: string, title: string, employerId: string)

  /** The `full_name` and `email` of a job's employer profile. */
  datatype Employer = Employer(fullName: string, email: string)

  /** A job row with its employer attached: `{ ...job, employer }`. */
  datatype Job = Job(row: JobRow, employer: Employer)

  const UnknownEmployer := Employer("Unknown", "Unknown")
  const LoadFailed := "Failed to load jobs"

  /** The employer a profile lookup yields: the profile, or "Unknown" when the lookup errs. */
  function EmployerOf(lookup: Result<Employer>): (r: Employer)
    ensures lookup.Ok? ==> r == lookup.value
    ensures lookup.Err? ==> r == UnknownEmployer
  {
    match lookup
    case Ok(e) => e
    case Err(_) => UnknownEmployer
  }

  /**
   * `Promise.all(jobsData.map(...))`, taken in order: each row gets the result
   * of its own profile lookup.
   */
  function WithEmployers(rows: seq<JobRow>, lookups: seq<Result<Employer>>): (r: seq<Job>)
    requires |lookups| == |rows|
    ensures |r| == |rows|
    ensures forall i :: 0 <= i < |rows| ==> r[i].row == rows[i] && r[i].employer == EmployerOf(lookups[i])
  {
    if rows == [] then []
    else [Job(rows[0], EmployerOf(lookups[0]))] + WithEmployers(rows[1..], lookups[1..])
  }

  /** What the deck renders. */
  datatype Screen =
    | Loading
    | Failed(message: string)
    | NoJobs
    | NoMoreJobs
    | Card(index: nat, job: Job)

  /** The render branches, tried in order: loading, error, no jobs, past the end, the card. */
  function ScreenOf(loading: bool, error: Option<string>, jobs: seq<Job>, currentIndex: nat): (r: Screen)
    ensures r.Loading? <==> loading
    ensures r.Failed? <==> !loading && Truthy(error)
    ensures r.Failed? ==> error.Some? && r.message == error.value
    ensures r.NoJobs? <==> !loading && !Truthy(error) && jobs == []
    ensures r.NoMoreJobs? <==> !loading && !Truthy(error) && jobs != [] && currentIndex >= |jobs|
    ensures r.Card? ==> r.index == currentIndex < |jobs| && r.job == jobs[currentIndex]
  {
    if loading then Loading
    else if Truthy(error) then Failed(error.value)
    else if |jobs| == 0 then NoJobs
    else if currentIndex >= |jobs| then NoMoreJobs
    else Card(currentIndex, jobs[currentIndex])
  }

  /** A call of `onSwipeRight` or `onSwipeLeft`. */
  datatype SwipeNotice = Applied(job: Job) | Ignored(job: Job)

  /**
   * The callback a completed gesture makes when it reads `jobs` and
   * `currentIndex`: none on a spring-back, none past the end of the list,
   * none when that side's callback prop is missing.
   */
  function NoticeFor(g: Release, jobs: seq<Job>, currentIndex: nat, hasOnSwipeRight: bool, hasOnSwipeLeft: bool)
    : (r: seq<SwipeNotice>)
    ensures |r| <= 1
    ensures r != [] <==>
      && currentIndex < |jobs|
      && ((g == SwipeRight && hasOnSwipeRight) || (g == SwipeLeft && hasOnSwipeLeft))
    ensures r != [] ==> r[0].job == jobs[currentIndex] && (r[0].Applied? <==> g == SwipeRight)
  {
    if currentIndex >= |jobs| then []
    else match g
      case SwipeRight => if hasOnSwipeRight then [Applied(jobs[currentIndex])] else []
      case SwipeLeft => if hasOnSwipeLeft then [Ignored(jobs[currentIndex])] else []
      case SpringBack => []
  }

  /** The `jobs` and `currentIndex` of the first render, which a handler built at mount keeps seeing. */
  const MountJobs: seq<Job> := []
  const MountIndex: nat := 0

  /** Whatever the deck holds now, a handler that reads the mount-time state reports no job. */
  lemma MountTimeHandlerNeverNotifies(g: Release, hasOnSwipeRight: bool, hasOnSwipeLeft: bool)
    ensures NoticeFor(g, MountJobs, MountIndex, hasOnSwipeRight, hasOnSwipeLeft) == []
  {
  }

  /**
   * One loaded job and a right swipe past the threshold: reading the current
   * state applies to it, reading the mount-time state does not.
   */
  lemma MountTimeHandlerMissesLoadedJob(j: Job)
    ensures Classify(SwipeThreshold + 1) == SwipeRight
    ensures NoticeFor(SwipeRight, [j], 0, true, true) == [Applied(j)]
    ensures NoticeFor(SwipeRight, MountJobs, MountIndex, true, true) == []
  {
  }

  class JobDeck {
    const hasOnSwipeRight: bool
    const hasOnSwipeLeft: bool
    var jobs: seq<Job>
    var currentIndex: nat
    var loading: bool
    var error: Option<string>
    /** The calls made to `onSwipeRight` and `onSwipeLeft`, oldest first. */
    var notices: seq<SwipeNotice>

    function CurrentScreen(): Screen
      reads this
    {
      ScreenOf(loading, error, jobs, currentIndex)
    }

    constructor (hasOnSwipeRight: bool, hasOnSwipeLeft: bool)
      ensures this.hasOnSwipeRight == hasOnSwipeRight && this.hasOnSwipeLeft == hasOnSwipeLeft
      ensures jobs == MountJobs && currentIndex == MountIndex && loading && error == None && notices == []
      ensures CurrentScreen() == Loading
    {
      this.hasOnSwipeRight, this.hasOnSwipeLeft := hasOnSwipeRight, hasOnSwipeLeft;
      jobs, currentIndex, loading, error, notices := MountJobs, MountIndex, true, None, [];
    }

    /**
     * `fetchJobs`, with the `jobs` query's reply and one profile lookup per
     * returned row as parameters. It never moves `currentIndex` and never
     * clears an earlier error.
     */
    method FetchJobs(query: Result<seq<JobRow>>, lookups: seq<Result<Employer>>)
      requires query.Ok? ==> |lookups| == |query.value|
      modifies this
      ensures !loading
      ensures currentIndex == old(currentIndex) && notices == old(notices)
      ensures query.Ok? ==> jobs == WithEmployers(query.value, lookups) && error == old(error)
      ensures query.Err? ==> jobs == old(jobs) && error == Some(LoadFailed)
    {
      loading := true;
      if query.Err? {
        error := Some(LoadFailed);
        loading := false;
        return;
      }
      jobs := WithEmployers(query.value, lookups);
      loading := false;
    }

    /** `nextCard`: one step further through the deck. */
    method NextCard()
      modifies this
      ensures currentIndex == old(currentIndex) + 1
      ensures jobs == old(jobs) && loading == old(loading) && error == old(error) && notices == old(notices)
    {
      currentIndex := currentIndex + 1;
    }

    /**
     * The end of a swipe animation (`swipeRight` or `swipeLeft`), reading
     * the deck's current `jobs` and `currentIndex`: report the current job,
     * if there is one, then move on.
     */
    method CompleteSwipe(g: Release)
      requires g != SpringBack
      modifies this
      ensures currentIndex == old(currentIndex) + 1
      ensures jobs == old(jobs) && loading == old(loading) && error == old(error)
      ensures notices == old(notices) + NoticeFor(g, jobs, old(currentIndex), hasOnSwipeRight, hasOnSwipeLeft)
    {
      if currentIndex < |jobs| {
        var currentJob := jobs[currentIndex];
        if g == SwipeRight && hasOnSwipeRight {
          notices := notices + [Applied(currentJob)];
        } else if g == SwipeLeft && hasOnSwipeLeft {
          notices := notices + [Ignored(currentJob)];
        }
      }
      NextCard();
    }

    /**
     * `onPanResponderRelease` for a drag of `dx`, with handlers that see the
     * current state. The pan handlers sit on the shown card only.
     */
    method Release(dx: int)
      requires CurrentScreen().Card?
      modifies this
      ensures currentIndex == old(currentIndex) + (if Classify(dx) == SpringBack then 0 else 1)
      ensures jobs == old(jobs) && loading == old(loading) && error == old(error)
      ensures notices == old(notices) + NoticeFor(Classify(dx), jobs, old(currentIndex), hasOnSwipeRight, hasOnSwipeLeft)
    {
      var g := Classify(dx);
      if g != SpringBack {
        CompleteSwipe(g);
      }
    }

    /**
     * `onPanResponderRelease` as written: the responder is created once at
     * mount, so its `swipeRight` and `swipeLeft` read the first render's
     * `jobs` and `currentIndex`; only the functional index update sees the
     * live state. As for `Release`, a card must be shown to be dragged.
     */
    method ReleaseAsWritten(dx: int)
      requires CurrentScreen().Card?
      modifies this
      ensures currentIndex == old(currentIndex) + (if Classify(dx) == SpringBack then 0 else 1)
      ensures jobs == old(jobs) && loading == old(loading) && error == old(error)
      ensures notices == old(notices) + NoticeFor(Classify(dx), MountJobs, MountIndex, hasOnSwipeRight, hasOnSwipeLeft)
      ensures notices == old(notices)
    {
      var g := Classify(dx);
      if g != SpringBack {
        notices := notices + NoticeFor(g, MountJobs, MountIndex, hasOnSwipeRight, hasOnSwipeLeft);
        NextCard();
      }
    }
  }

  /** A shown card is always a job of the list: its index is in range. */
  lemma ShownCardInRange(loading: bool, error: Option<string>, jobs: seq<Job>, currentIndex: nat)
    requires ScreenOf(loading, error, jobs, currentIndex).Card?
    ensures currentIndex < |jobs|
    ensures ScreenOf(loading, error, jobs, currentIndex).job in jobs
  {
  }

  /**
   * After the last card is swiped, every further swipe keeps the deck on
   * "no more jobs", and a refresh that returns no more rows than were swiped
   * does too, since `currentIndex` is not reset.
   */
  lemma {:induction false} ExhaustedStaysExhausted(error: Option<string>, jobs: seq<Job>, currentIndex: nat, extra: nat)
    requires !Truthy(error) && jobs != [] && currentIndex >= |jobs|
    ensures ScreenOf(false, error, jobs, currentIndex + extra) == NoMoreJobs
  {
  }
}
