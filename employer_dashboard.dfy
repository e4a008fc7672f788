/**
 * The employer's dashboard: the employer's jobs, each with its number of
 * applications, a statistics summary (total and active jobs, total
 * applications), the most popular job, and links to each job, its
 * applicants and the job-creation screen.
 */
module EmployerDashboard {
  import opened Wrappers
  import opened Text

  /** A row of the `jobs` table, as far as the dashboard shows it. */
  datatype JobRow = JobRow(id: string, title: string, jobType: string, location: Option<string>, status: string)

  /** A row with its application count attached: `{ ...job, applicationCount }`. */
  datatype Job = Job(row: JobRow, applicationCount: nat)

  /** The reply of the head-only `count: 'exact'` query: an error, or a count that may be null. */
  datatype CountReply = CountFailed(message: string) | Counted(count: Option<nat>)

  const OpenStatus := "open"
  const SignInRoute := "/sign-in"
  const CreateJobRoute := "/create-job"
  const JobRoutePrefix := "/job/"
  const ApplicantsRoutePrefix := "/job-applicants/"

  /** An expo-router call. */
  datatype Navigation = Replace(route: string) | Push(route: string)

  /** The count a reply yields: 0 on an error, `count || 0` otherwise. */
  function ApplicationCount(reply: CountReply): (r: nat)
    ensures reply.Counted? && reply.count.Some? ==> r == reply.count.value
    ensures reply.CountFailed? || reply.count.None? ==> r == 0
  {
    match reply
    case CountFailed(_) => 0
    case Counted(count) => count.GetOr(0)
  }

  /** `Promise.all(jobsData.map(...))`, taken in order: each row gets its own count. */
  function WithCounts(rows: seq<JobRow>, replies: seq<CountReply>): (r: seq<Job>)
    requires |replies| == |rows|
    ensures |r| == |rows|
    ensures forall i :: 0 <= i < |rows| ==> r[i] == Job(rows[i], ApplicationCount(replies[i]))
  {
    if rows == [] then []
    else [Job(rows[0], ApplicationCount(replies[0]))] + WithCounts(rows[1..], replies[1..])
  }

  /** `jobs.reduce((sum, job) => sum + job.applicationCount, 0)`, a fold from the left. */
  function TotalApplications(jobs: seq<Job>): (r: nat)
    ensures jobs == [] ==> r == 0
    ensures |jobs| == 1 ==> r == jobs[0].applicationCount
  {
    if jobs == [] then 0
    else TotalApplications(jobs[..|jobs| - 1]) + jobs[|jobs| - 1].applicationCount
  }

  /** The fold adds up each part of a concatenation, in any split. */
  lemma {:induction false} TotalAppend(a: seq<Job>, b: seq<Job>)
    ensures TotalApplications(a + b) == TotalApplications(a) + TotalApplications(b)
  {
    if b != [] {
      var init := b[..|b| - 1];
      TotalAppend(a, init);
      assert (a + b)[..|a + b| - 1] == a + init;
    } else {
      assert a + b == a;
    }
  }

  /** No applications in total exactly when no job has any. */
  lemma {:induction false} TotalZeroIff(jobs: seq<Job>)
    ensures TotalApplications(jobs) == 0 <==> forall i :: 0 <= i < |jobs| ==> jobs[i].applicationCount == 0
  {
    if jobs != [] {
      var init := jobs[..|jobs| - 1];
      TotalZeroIff(init);
      assert forall i :: 0 <= i < |init| ==> init[i] == jobs[i];
    }
  }

  /** Every job's count is part of the total. */
  lemma {:induction false} CountWithinTotal(jobs: seq<Job>, k: nat)
    requires k < |jobs|
    ensures jobs[k].applicationCount <= TotalApplications(jobs)
  {
    if k < |jobs| - 1 {
      var init := jobs[..|jobs| - 1];
      CountWithinTotal(init, k);
      assert init[k] == jobs[k];
    }
  }

  /** `jobs.filter(job => job.status === 'open')` */
  function OpenJobs(jobs: seq<Job>): (r: seq<Job>)
    ensures |r| <= |jobs|
    ensures forall j :: j in r <==> j in jobs && j.row.status == OpenStatus
  {
    if jobs == [] then []
    else (if jobs[0].row.status == OpenStatus then [jobs[0]] else []) + OpenJobs(jobs[1..])
  }

  /** Filtering a concatenation filters each part and keeps them in order. */
  lemma {:induction false} OpenJobsAppend(a: seq<Job>, b: seq<Job>)
    ensures OpenJobs(a + b) == OpenJobs(a) + OpenJobs(b)
  {
    if a == [] {
      assert a + b == b;
    } else {
      var head := if a[0].row.status == OpenStatus then [a[0]] else [];
      assert (a + b)[0] == a[0];
      assert (a + b)[1..] == a[1..] + b;
      assert OpenJobs(a + b) == head + OpenJobs(a[1..] + b);
      OpenJobsAppend(a[1..], b);
      assert OpenJobs(a) == head + OpenJobs(a[1..]);
    }
  }

  /** A single job is kept, once, exactly when it is open. */
  lemma OpenJobsSingle(j: Job)
    ensures OpenJobs([j]) == if j.row.status == OpenStatus then [j] else []
  {
    assert [j][1..] == [];
  }

  /** The number of open jobs: the "Active" figure, counted position by position. */
  function OpenCount(jobs: seq<Job>): (n: nat)
    ensures n <= |jobs|
    ensures n == |set i | 0 <= i < |jobs| && jobs[i].row.status == OpenStatus|
  {
    if jobs == [] then 0
    else
      var init := jobs[..|jobs| - 1];
      var last := |jobs| - 1;
      var before := set i | 0 <= i < |init| && init[i].row.status == OpenStatus;
      var all := set i | 0 <= i < |jobs| && jobs[i].row.status == OpenStatus;
      assert forall i :: 0 <= i < last ==> init[i] == jobs[i];
      if jobs[last].row.status == OpenStatus then
        assert all == before + {last};
        OpenCount(init) + 1
      else
        assert all == before;
        OpenCount(init)
  }

  /** `.length` of the filter is the number of open positions. */
  lemma {:induction false} OpenJobsCount(jobs: seq<Job>)
    ensures |OpenJobs(jobs)| == OpenCount(jobs)
  {
    if jobs != [] {
      var init := jobs[..|jobs| - 1];
      var last := jobs[|jobs| - 1];
      assert jobs == init + [last];
      OpenJobsAppend(init, [last]);
      OpenJobsSingle(last);
      OpenJobsCount(init);
    }
  }

  /** The "Active" figure equals the number of jobs exactly when every job is open. */
  lemma {:induction false} AllActiveIff(jobs: seq<Job>)
    ensures |OpenJobs(jobs)| == |jobs| <==> forall i :: 0 <= i < |jobs| ==> jobs[i].row.status == OpenStatus
  {
    if jobs != [] {
      AllActiveIff(jobs[1..]);
      assert forall i :: 1 <= i < |jobs| ==> jobs[i] == jobs[1..][i - 1];
    }
  }

  /**
   * The index of `[...jobs].sort((a, b) => b.applicationCount - a.applicationCount)[0]`:
   * the sort is stable, so the head is the first job with the largest count.
   */
  function MostPopularIndex(jobs: seq<Job>): (k: nat)
    requires jobs != []
    ensures k < |jobs|
    ensures forall i :: 0 <= i < |jobs| ==> jobs[i].applicationCount <= jobs[k].applicationCount
    ensures forall i :: 0 <= i < k ==> jobs[i].applicationCount < jobs[k].applicationCount
  {
    if |jobs| == 1 then 0
    else
      var k := MostPopularIndex(jobs[..|jobs| - 1]);
      assert forall i :: 0 <= i < |jobs| - 1 ==> jobs[..|jobs| - 1][i] == jobs[i];
      if jobs[|jobs| - 1].applicationCount > jobs[k].applicationCount then |jobs| - 1 else k
  }

  /** `renderMostPopularJob`: nothing for no jobs or a top count of 0, else the most popular job. */
  function MostPopular(jobs: seq<Job>): (r: Option<Job>)
    ensures jobs == [] ==> r.None?
    ensures r.Some? ==> r.value == jobs[MostPopularIndex(jobs)] && r.value.applicationCount > 0
  {
    if jobs == [] then None
    else
      var top := jobs[MostPopularIndex(jobs)];
      if top.applicationCount == 0 then None else Some(top)
  }

  /** The popular-job panel is hidden exactly when no job has an application. */
  lemma MostPopularHiddenIff(jobs: seq<Job>)
    ensures MostPopular(jobs).None? <==> TotalApplications(jobs) == 0
  {
    TotalZeroIff(jobs);
    if jobs != [] {
      var k := MostPopularIndex(jobs);
      CountWithinTotal(jobs, k);
    }
  }

  /** The two summary cards. */
  datatype Stats = Stats(totalJobs: nat, activeJobs: nat, totalApplications: nat)

  /** `renderStatistics`: nothing for no jobs, else the three figures. */
  function Statistics(jobs: seq<Job>): (r: Option<Stats>)
    ensures r.None? <==> jobs == []
    ensures r.Some? ==> r.value.totalJobs == |jobs| && r.value.activeJobs <= r.value.totalJobs
    ensures r.Some? ==> r.value.activeJobs == |OpenJobs(jobs)| && r.value.totalApplications == TotalApplications(jobs)
    ensures r.Some? ==> r.value.activeJobs == OpenCount(jobs)
  {
    if jobs == [] then None
    else
      OpenJobsCount(jobs);
      Some(Stats(|jobs|, |OpenJobs(jobs)|, TotalApplications(jobs)))
  }

  /** The noun after a count: singular for exactly one applicant. */
  function ApplicantLabel(count: nat): (r: string)
    ensures r == "Applicant" <==> count == 1
    ensures r == "Applicants" <==> count != 1
  {
    if count == 1 then "Applicant" else "Applicants"
  }

  /** `item.location || 'Remote'` */
  function LocationLabel(location: Option<string>): (r: string)
    ensures Truthy(location) ==> r == location.value
    ensures !Truthy(location) ==> r == "Remote"
  {
    if Truthy(location) then location.value else "Remote"
  }

  /** `/job/${jobId}`: the route ends with the job's id. */
  function JobRoute(jobId: string): (r: string)
    ensures IsPrefix(JobRoutePrefix, r) && r[|JobRoutePrefix|..] == jobId
  {
    JobRoutePrefix + jobId
  }

  /** `/job-applicants/${jobId}`: the route ends with the job's id. */
  function ApplicantsRoute(jobId: string): (r: string)
    ensures IsPrefix(ApplicantsRoutePrefix, r) && r[|ApplicantsRoutePrefix|..] == jobId
  {
    ApplicantsRoutePrefix + jobId
  }

  /** What the dashboard renders. */
  datatype View =
    | Spinner
    | ErrorView(message: string)
    | NoListings
    | Listing(stats: Stats, popular: Option<Job>, jobs: seq<Job>)

  /** The render branches, tried in order: loading, error, no jobs, the listing. */
  function ViewOf(loading: bool, error: Option<string>, jobs: seq<Job>): (r: View)
    ensures r.Spinner? <==> loading
    ensures r.ErrorView? <==> !loading && Truthy(error)
    ensures r.ErrorView? ==> error.Some? && r.message == error.value
    ensures r.NoListings? <==> !loading && !Truthy(error) && jobs == []
    ensures r.Listing? ==> r.jobs == jobs && Statistics(jobs) == Some(r.stats) && r.popular == MostPopular(jobs)
  {
    if loading then Spinner
    else if Truthy(error) then ErrorView(error.value)
    else if jobs == [] then NoListings
    else Listing(Statistics(jobs).value, MostPopular(jobs), jobs)
  }

  class Dashboard {
    var jobs: seq<Job>
    var loading: bool
    var error: Option<string>
    /** The router calls made so far, oldest first. */
    var navigations: seq<Navigation>

    function CurrentView(): View
      reads this
    {
      ViewOf(loading, error, jobs)
    }

    constructor ()
      ensures jobs == [] && loading && error == None && navigations == []
      ensures CurrentView() == Spinner
    {
      jobs, loading, error, navigations := [], true, None, [];
    }

    /**
     * `fetchJobsWithApplications`, with whether a session exists, the reply
     * of the session user's `jobs` query and one count reply per returned
     * row as parameters. `loading` is false on every way out; an earlier
     * error is not cleared by a later success.
     */
    method FetchJobsWithApplications(hasSession: bool, query: Result<seq<JobRow>>, replies: seq<CountReply>)
      requires query.Ok? ==> |replies| == |query.value|
      modifies this
      ensures !loading
      ensures !hasSession ==>
        jobs == old(jobs) && error == old(error) && navigations == old(navigations) + [Replace(SignInRoute)]
      ensures hasSession && query.Err? ==>
        jobs == old(jobs) && error == Some(query.message) && navigations == old(navigations)
      ensures hasSession && query.Ok? ==>
        jobs == WithCounts(query.value, replies) && error == old(error) && navigations == old(navigations)
    {
      loading := true;
      if !hasSession {
        navigations := navigations + [Replace(SignInRoute)];
        loading := false;
        return;
      }
      if query.Err? {
        error := Some(query.message);
        loading := false;
        return;
      }
      jobs := WithCounts(query.value, replies);
      loading := false;
    }

    /** `handleViewJob` */
    method ViewJob(jobId: string)
      modifies this
      ensures navigations == old(navigations) + [Push(JobRoute(jobId))]
      ensures jobs == old(jobs) && loading == old(loading) && error == old(error)
    {
      navigations := navigations + [Push(JobRoute(jobId))];
    }

    /** `handleViewApplicants` */
    method ViewApplicants(jobId: string)
      modifies this
      ensures navigations == old(navigations) + [Push(ApplicantsRoute(jobId))]
      ensures jobs == old(jobs) && loading == old(loading) && error == old(error)
    {
      navigations := navigations + [Push(ApplicantsRoute(jobId))];
    }

    /** `handleCreateJob` */
    method CreateJob()
      modifies this
      ensures navigations == old(navigations) + [Push(CreateJobRoute)]
      ensures jobs == old(jobs) && loading == old(loading) && error == old(error)
    {
      navigations := navigations + [Push(CreateJobRoute)];
    }
  }
}
