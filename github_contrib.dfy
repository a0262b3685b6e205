/** The `/api/github-contrib` endpoint: after checking the `username`
    parameter and the server's token it queries GitHub's GraphQL API for a
    year of contributions and reshapes the calendar. The GraphQL response is
    an input; the `errors` payload is taken already serialised. */
module GithubContrib {
  import opened Wrappers
  import opened Text

  /** A `contributionDays` entry as GitHub sends it. */
  datatype ContributionDay = ContributionDay(date: string, contributionCount: nat, color: string, weekday: nat)
  datatype Week = Week(contributionDays: seq<ContributionDay>)

  /** A day as the endpoint returns it. */
  datatype Day = Day(date: string, count: nat, color: string, weekday: nat)
  datatype OutWeek = OutWeek(contributionDays: seq<Day>)

  datatype Upstream =
    | NotOk(status: nat)
    | GraphQLErrors(serialised: string)
    | Calendar(totalContributions: nat, weeks: seq<Week>)

  datatype Body = Text(text: string) | Contributions(totalContributions: nat, weeks: seq<OutWeek>)
  datatype Reply = Reply(status: nat, body: Body)

  function ToDay(d: ContributionDay): (r: Day)
    ensures r.date == d.date && r.count == d.contributionCount && r.color == d.color && r.weekday == d.weekday
  {
    Day(d.date, d.contributionCount, d.color, d.weekday)
  }

  function ToWeek(w: Week): (r: OutWeek)
    ensures |r.contributionDays| == |w.contributionDays|
    ensures forall i :: 0 <= i < |w.contributionDays| ==> r.contributionDays[i] == ToDay(w.contributionDays[i])
  {
    OutWeek(seq(|w.contributionDays|, i requires 0 <= i < |w.contributionDays| => ToDay(w.contributionDays[i])))
  }

  /** The nested `map` over weeks and days. */
  function Reshape(weeks: seq<Week>): (r: seq<OutWeek>)
    ensures |r| == |weeks|
    ensures forall i :: 0 <= i < |weeks| ==> r[i] == ToWeek(weeks[i])
  {
    seq(|weeks|, i requires 0 <= i < |weeks| => ToWeek(weeks[i]))
  }

  /** The renaming back, used to show that reshaping loses nothing. */
  function FromDay(d: Day): ContributionDay
  {
    ContributionDay(d.date, d.count, d.color, d.weekday)
  }

  function Restore(weeks: seq<OutWeek>): (r: seq<Week>)
    ensures |r| == |weeks|
  {
    seq(|weeks|, i requires 0 <= i < |weeks| =>
      Week(seq(|weeks[i].contributionDays|, j requires 0 <= j < |weeks[i].contributionDays| => FromDay(weeks[i].contributionDays[j]))))
  }

  /** Week order, each week's day order and every field survive the reshaping. */
  lemma ReshapeRoundTrip(weeks: seq<Week>)
    ensures Restore(Reshape(weeks)) == weeks
  {
    var r := Restore(Reshape(weeks));
    forall i | 0 <= i < |weeks|
      ensures r[i] == weeks[i]
    {
      assert r[i].contributionDays == weeks[i].contributionDays;
    }
  }

  function DaysTotal(days: seq<ContributionDay>): nat
  {
    if days == [] then 0 else DaysTotal(days[..|days| - 1]) + days[|days| - 1].contributionCount
  }

  function OutDaysTotal(days: seq<Day>): nat
  {
    if days == [] then 0 else OutDaysTotal(days[..|days| - 1]) + days[|days| - 1].count
  }

  /** A week's summed count is the same before and after the renaming. */
  lemma {:induction false} WeekTotalKept(w: Week)
    ensures OutDaysTotal(ToWeek(w).contributionDays) == DaysTotal(w.contributionDays)
    decreases |w.contributionDays|
  {
    var days := w.contributionDays;
    if days != [] {
      var init := Week(days[..|days| - 1]);
      WeekTotalKept(init);
      assert ToWeek(w).contributionDays[..|days| - 1] == ToWeek(init).contributionDays;
    }
  }

  /** The `GET` handler, with the response body the source evidently intends. */
  function Get(username: Option<string>, token: Option<string>, upstream: Upstream): Reply
  {
    if !Truthy(username) then Reply(400, Text("username is required"))
    else if !Truthy(token) then Reply(500, Text("GitHub token is not set"))
    else match upstream
      case NotOk(status) => Reply(status, Text("Failed to fetch data from GitHub"))
      case GraphQLErrors(serialised) => Reply(500, Text(serialised))
      case Calendar(total, weeks) => Reply(200, Contributions(total, Reshape(weeks)))
  }

  /** The guards in order, then the upstream outcome; the total is passed on
      unchanged and the calendar keeps every week and day. */
  lemma GetCases(username: Option<string>, token: Option<string>, upstream: Upstream)
    ensures var r := Get(username, token, upstream);
      (!Truthy(username) ==> r == Reply(400, Text("username is required"))) &&
      (Truthy(username) && !Truthy(token) ==> r == Reply(500, Text("GitHub token is not set"))) &&
      (Truthy(username) && Truthy(token) ==>
        (upstream.NotOk? ==> r.status == upstream.status && r.body == Text("Failed to fetch data from GitHub")) &&
        (upstream.GraphQLErrors? ==> r.status == 500 && r.body == Text(upstream.serialised)) &&
        (upstream.Calendar? ==> r.status == 200 && r.body.totalContributions == upstream.totalContributions &&
                                Restore(r.body.weeks) == upstream.weeks))
    ensures Get(username, token, upstream).body.Contributions? <==> Truthy(username) && Truthy(token) && upstream.Calendar?
  {
    if upstream.Calendar? {
      ReshapeRoundTrip(upstream.weeks);
    }
  }
}
