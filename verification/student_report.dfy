/**
  The student report function: it authenticates the caller's bearer token,
  reads the student's profile, test attempts and SLO performance rows,
  folds them into summary statistics and stores the report.
*/
module StudentReport {
  import opened Wrappers
  import opened Levels
  import opened Text

  type UserId = string

  /** The columns of a `test_attempts` row that the statistics use. */
  datatype AttemptRow = AttemptRow(rawScore: real, totalPossible: real)

  /** The columns of a `slo_performance` row that the statistics use. */
  datatype PerformanceRow = PerformanceRow(sloId: string, currentLevel: Level)

  datatype Profile = Profile(id: UserId, fullName: string)

  datatype Statistics = Statistics(
    totalAttempts: nat,
    totalMarksEarned: real,
    totalMarksPossible: real,
    averagePercentage: real,
    proficiencyCounts: map<Level, nat>)

  datatype ReportData = ReportData(
    student: Profile,
    attempts: seq<AttemptRow>,
    sloPerformance: seq<PerformanceRow>,
    statistics: Statistics)

  /** A `student_reports` row. */
  datatype StoredReport = StoredReport(studentId: UserId, generatedBy: UserId, data: ReportData)

  /** The database accesses the handler makes, in the order it makes them. */
  datatype Access = AuthLookup | ReadProfile | ReadAttempts | ReadPerformance | InsertReport

  /** Every access of a successful request, in order; a failing request stops after a prefix of it. */
  const Protocol: seq<Access> := [AuthLookup, ReadProfile, ReadAttempts, ReadPerformance, InsertReport]

  datatype ReportError =
    | NoAuthorizationHeader
    | Unauthorized
    | ProfileError
    | AttemptsError
    | PerformanceError
    | InsertError

  // ---------------------------------------------------------------------------
  // Statistics

  /** `reduce((sum, a) => sum + Number(a.raw_score), 0)`. */
  function TotalEarned(attempts: seq<AttemptRow>): real {
    if attempts == [] then 0.0
    else TotalEarned(attempts[..|attempts| - 1]) + attempts[|attempts| - 1].rawScore
  }

  /** `reduce((sum, a) => sum + Number(a.total_possible), 0)`. */
  function TotalPossible(attempts: seq<AttemptRow>): real {
    if attempts == [] then 0.0
    else TotalPossible(attempts[..|attempts| - 1]) + attempts[|attempts| - 1].totalPossible
  }

  /** The sums over two runs of attempts add up. */
  lemma {:induction false} TotalsAppend(a: seq<AttemptRow>, b: seq<AttemptRow>)
    ensures TotalEarned(a + b) == TotalEarned(a) + TotalEarned(b)
    ensures TotalPossible(a + b) == TotalPossible(a) + TotalPossible(b)
  {
    if b == [] {
      assert a + b == a;
    } else {
      var n := |b| - 1;
      TotalsAppend(a, b[..n]);
      assert (a + b)[..|a + b| - 1] == a + b[..n];
    }
  }

  /** The percentage of the marks earned, `0.0` when nothing was possible; exact, without `toFixed(1)`. */
  function AveragePercentage(earned: real, possible: real): (r: real)
    ensures possible > 0.0 ==> r * possible == 100.0 * earned
    ensures possible <= 0.0 ==> r == 0.0
  {
    if possible > 0.0 then earned / possible * 100.0 else 0.0
  }

  /** The levels of the rows, in order. */
  function LevelsOf(ps: seq<PerformanceRow>): (r: seq<Level>)
    ensures |r| == |ps| && forall i :: 0 <= i < |ps| ==> r[i] == ps[i].currentLevel
  {
    seq(|ps|, i requires 0 <= i < |ps| => ps[i].currentLevel)
  }

  /**
    `proficiencyCounts`: `acc[level] = (acc[level] || 0) + 1` over the rows.
    A level has a key exactly when some row has it, and its count is the
    number of rows with it.
  */
  function ProficiencyCounts(ps: seq<PerformanceRow>): (m: map<Level, nat>)
    ensures forall l :: l in m <==> l in LevelsOf(ps)
    ensures forall l :: l in m ==> m[l] == multiset(LevelsOf(ps))[l]
  {
    if ps == [] then map[]
    else
      var init := ps[..|ps| - 1];
      var l := ps[|ps| - 1].currentLevel;
      var acc := ProficiencyCounts(init);
      assert LevelsOf(ps) == LevelsOf(init) + [l];
      assert forall i :: 0 <= i < |init| ==> init[i] == ps[i];
      acc[l := (if l in acc then acc[l] else 0) + 1]
  }

  /** The count for a level, 0 for a level without a key. */
  function CountFor(m: map<Level, nat>, l: Level): nat {
    if l in m then m[l] else 0
  }

  /** The counts sum to the number of rows. */
  lemma {:induction false} CountsSumToRows(ps: seq<PerformanceRow>)
    ensures var m := ProficiencyCounts(ps);
            CountFor(m, Mastery) + CountFor(m, Satisfactory) + CountFor(m, Developmental) == |ps|
  {
    if ps != [] {
      CountsSumToRows(ps[..|ps| - 1]);
    }
  }

  /** The statistics block of the report. */
  function ReportStatistics(attempts: seq<AttemptRow>, ps: seq<PerformanceRow>): (s: Statistics)
    ensures s.totalAttempts == |attempts|
    ensures s.totalMarksEarned == TotalEarned(attempts) && s.totalMarksPossible == TotalPossible(attempts)
    ensures s.totalMarksPossible > 0.0 ==> s.averagePercentage * s.totalMarksPossible == 100.0 * s.totalMarksEarned
    ensures s.totalMarksPossible <= 0.0 ==> s.averagePercentage == 0.0
    ensures s.proficiencyCounts == ProficiencyCounts(ps)
  {
    var earned, possible := TotalEarned(attempts), TotalPossible(attempts);
    Statistics(|attempts|, earned, possible, AveragePercentage(earned, possible), ProficiencyCounts(ps))
  }

  /** No attempts and no performance rows: all zero, `"0.0"`, and no counts. */
  lemma EmptyStatistics()
    ensures ReportStatistics([], []) == Statistics(0, 0.0, 0.0, 0.0, map[])
  {
  }

  /** Each attempt scores within its own total. */
  predicate ScoresWithinTotals(attempts: seq<AttemptRow>) {
    forall i :: 0 <= i < |attempts| ==> 0.0 <= attempts[i].rawScore <= attempts[i].totalPossible
  }

  lemma {:induction false} EarnedWithinPossible(attempts: seq<AttemptRow>)
    requires ScoresWithinTotals(attempts)
    ensures 0.0 <= TotalEarned(attempts) <= TotalPossible(attempts)
  {
    if attempts != [] {
      EarnedWithinPossible(attempts[..|attempts| - 1]);
    }
  }

  /** When every attempt scores within its own total, the average lies between 0 and 100. */
  lemma AverageInRange(attempts: seq<AttemptRow>, ps: seq<PerformanceRow>)
    requires ScoresWithinTotals(attempts)
    ensures 0.0 <= ReportStatistics(attempts, ps).averagePercentage <= 100.0
  {
    EarnedWithinPossible(attempts);
    var s := ReportStatistics(attempts, ps);
    if s.totalMarksPossible > 0.0 {
      ScaledBelow(s.averagePercentage, s.totalMarksPossible, s.totalMarksEarned);
    }
  }

  /** `a * p == 100 * e` with `0 <= e <= p` and `p > 0` puts `a` between 0 and 100. */
  lemma ScaledBelow(a: real, p: real, e: real)
    requires p > 0.0 && 0.0 <= e <= p && a * p == 100.0 * e
    ensures 0.0 <= a <= 100.0
  {
  }

  // ---------------------------------------------------------------------------
  // Authorization

  /** `if (!authHeader)`: an absent or empty header. */
  predicate HasHeader(authorization: Option<string>) {
    authorization.Some? && authorization.value != ""
  }

  /** `authHeader.replace('Bearer ', '')`. */
  function Token(header: string): string {
    ReplaceFirst(header, "Bearer ", "")
  }

  /** A header of the form `Bearer <token>` yields the token. */
  lemma BearerToken(token: string)
    ensures Token("Bearer " + token) == token
  {
    var h := "Bearer " + token;
    assert OccursAt(h, "Bearer ", 0);
    assert h[7..] == token;
  }

  /**
    The database the function reads and writes, held in memory: the auth
    sessions (token to user), the tables it reads, the reports it stores,
    and the log of accesses made.
  */
  class ReportService {
    var sessions: map<string, UserId>
    var profiles: map<UserId, Profile>
    var attemptRows: map<UserId, seq<AttemptRow>>
    var performanceRows: map<UserId, seq<PerformanceRow>>
    var reports: seq<StoredReport>
    var log: seq<Access>

    constructor (sessions: map<string, UserId>, profiles: map<UserId, Profile>,
                 attemptRows: map<UserId, seq<AttemptRow>>, performanceRows: map<UserId, seq<PerformanceRow>>)
      ensures this.sessions == sessions && this.profiles == profiles
      ensures this.attemptRows == attemptRows && this.performanceRows == performanceRows
      ensures reports == [] && log == []
    {
      this.sessions := sessions;
      this.profiles := profiles;
      this.attemptRows := attemptRows;
      this.performanceRows := performanceRows;
      reports := [];
      log := [];
    }

    /** The user the header's token belongs to, if it belongs to one. */
    function Caller(authorization: Option<string>): Option<UserId>
      reads this
    {
      if HasHeader(authorization) && Token(authorization.value) in sessions
      then Some(sessions[Token(authorization.value)])
      else None
    }

    /** The student's attempts in submission order, none when the student has none. */
    function AttemptsOf(studentId: UserId): seq<AttemptRow>
      reads this
    {
      if studentId in attemptRows then attemptRows[studentId] else []
    }

    function PerformanceOf(studentId: UserId): seq<PerformanceRow>
      reads this
    {
      if studentId in performanceRows then performanceRows[studentId] else []
    }

    /**
      The handler after authentication, for the caller `user`: the profile,
      attempts and performance reads, then the insert of the report. Each
      step runs only if the one before succeeded.
    */
    method ReadAndStore(studentId: UserId, user: UserId, failing: set<Access>)
      returns (r: Result<ReportData, ReportError>)
      modifies this
      ensures sessions == old(sessions) && profiles == old(profiles)
      ensures attemptRows == old(attemptRows) && performanceRows == old(performanceRows)
      ensures |old(log)| < |log| < |old(log)| + |Protocol| && log == old(log) + Protocol[1..|log| - |old(log)| + 1]
      ensures r.Err? ==> reports == old(reports)
      ensures r.Ok? ==>
        && studentId in profiles && log == old(log) + Protocol[1..]
        && r.value == ReportData(profiles[studentId], AttemptsOf(studentId), PerformanceOf(studentId),
                                 ReportStatistics(AttemptsOf(studentId), PerformanceOf(studentId)))
        && reports == old(reports) + [StoredReport(studentId, user, r.value)]
    {
      log := log + [ReadProfile];
      if ReadProfile in failing || studentId !in profiles {
        return Err(ProfileError);
      }
      var student := profiles[studentId];

      log := log + [ReadAttempts];
      if ReadAttempts in failing {
        return Err(AttemptsError);
      }
      var attempts := AttemptsOf(studentId);

      log := log + [ReadPerformance];
      if ReadPerformance in failing {
        return Err(PerformanceError);
      }
      var sloPerformance := PerformanceOf(studentId);

      var reportData := ReportData(student, attempts, sloPerformance, ReportStatistics(attempts, sloPerformance));
      log := log + [InsertReport];
      if InsertReport in failing {
        return Err(InsertError);
      }
      reports := reports + [StoredReport(studentId, user, reportData)];
      return Ok(reportData);
    }

    /**
      The request handler. `failing` names the queries that come back with a
      database error. A missing header or a token that resolves to no user
      fails before any table is read; every read happens only for an
      authenticated caller; a report is stored only when every step succeeded.
    */
    method GenerateStudentReport(authorization: Option<string>, studentId: UserId, failing: set<Access>)
      returns (r: Result<ReportData, ReportError>)
      modifies this
      ensures sessions == old(sessions) && profiles == old(profiles)
      ensures attemptRows == old(attemptRows) && performanceRows == old(performanceRows)
      ensures |old(log)| <= |log| <= |old(log)| + |Protocol| && log == old(log) + Protocol[..|log| - |old(log)|]
      ensures !HasHeader(authorization) ==> r == Err(NoAuthorizationHeader) && log == old(log)
      ensures HasHeader(authorization) && (AuthLookup in failing || Caller(authorization).None?) ==>
        r == Err(Unauthorized) && log == old(log) + [AuthLookup]
      ensures |log| > |old(log)| + 1 ==> AuthLookup !in failing && Caller(authorization).Some?
      ensures r.Err? ==> reports == old(reports)
      ensures r.Ok? ==>
        && AuthLookup !in failing && Caller(authorization).Some? && studentId in profiles
        && log == old(log) + Protocol
        && r.value == ReportData(profiles[studentId], AttemptsOf(studentId), PerformanceOf(studentId),
                                 ReportStatistics(AttemptsOf(studentId), PerformanceOf(studentId)))
        && reports == old(reports) + [StoredReport(studentId, Caller(authorization).value, r.value)]
    {
      if !HasHeader(authorization) {
        return Err(NoAuthorizationHeader);
      }
      var token := Token(authorization.value);
      log := log + [AuthLookup];
      if AuthLookup in failing || token !in sessions {
        return Err(Unauthorized);
      }
      var user := sessions[token];
      ghost var authenticated := log;
      r := ReadAndStore(studentId, user, failing);
      assert log == authenticated + Protocol[1..|log| - |authenticated| + 1];
      assert old(log) + [AuthLookup] + Protocol[1..|log| - |old(log)|] == old(log) + Protocol[..|log| - |old(log)|];
    }
  }
}
