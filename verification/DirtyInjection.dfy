/** The dirty-data exercise: corrupting a batch of charging sessions so that
    cleaning it again gives the sessions it started from.

    Rows are numbered in reading order. The fee column stands for its number,
    and `rest` for the columns neither side looks at one by one. Which rows are
    drawn, and which corruption each gets, is an arbitrary function. */
module DirtyInjection {
  import opened Basics

  datatype Kind = Duplicate | NegativeFee | UnknownStation | MissingId | StatusFormat
  datatype Action = RemoveDuplicate | Normalize | Quarantine

  datatype Row = Row(session: string, station: string, fee: int, status: string, rest: seq<string>)
  datatype LogRow = LogRow(corruption: string, record: string, kind: Kind, action: Action)
  datatype Operation = Operation(log: LogRow, row: nat)

  /** The parts of the manifest that cleaning reconciles with. */
  datatype Manifest = Manifest(canonical: nat, corruptions: multiset<Kind>)
  datatype Batch = Batch(rows: seq<Row>, log: seq<LogRow>, manifest: Manifest)

  datatype Problem =
    | ConflictingDuplicate | UnexpectedLogRow | CountsDoNotReconcile | CanonicalCountMismatch
    | InvalidInput | CorruptionIdCollision | SelectionDiffers | SentinelCollision | InvalidOutput

  datatype Result<+T> = Ok(value: T) | Err(problem: Problem)

  const SENTINEL := "ST-INJECT-UNKNOWN"

  function ActionFor(kind: Kind): Action {
    match kind
    case Duplicate => RemoveDuplicate
    case StatusFormat => Normalize
    case _ => Quarantine
  }

  // ---- status text, over ASCII ----

  predicate Blank(c: char): (blank: bool)
    ensures blank <==> c as int == 32 || 9 <= c as int <= 13 || 28 <= c as int <= 31
  {
    c == ' ' || '\t' <= c <= '\r' || 28 <= c as int <= 31
  }

  function UpperChar(c: char): (upper: char)
    ensures upper as int == if 97 <= c as int <= 122 then c as int - 32 else c as int
  {
    if 'a' <= c <= 'z' then c - 'a' + 'A' else c
  }

  function LowerChar(c: char): (lower: char)
    ensures lower as int == if 65 <= c as int <= 90 then c as int + 32 else c as int
  {
    if 'A' <= c <= 'Z' then c - 'A' + 'a' else c
  }

  function Upper(s: string): string {
    seq(|s|, i requires 0 <= i < |s| => UpperChar(s[i]))
  }

  function Lower(s: string): string {
    seq(|s|, i requires 0 <= i < |s| => LowerChar(s[i]))
  }

  function StripLeft(s: string): string {
    if s != "" && Blank(s[0]) then StripLeft(s[1..]) else s
  }

  function StripRight(s: string): string {
    if s != "" && Blank(s[|s| - 1]) then StripRight(s[..|s| - 1]) else s
  }

  function Strip(s: string): string {
    StripRight(StripLeft(s))
  }

  function Normalized(status: string): string {
    Upper(Strip(status))
  }

  function Misformatted(status: string): string {
    " " + Lower(Strip(status)) + " "
  }

  predicate Trim(s: string) {
    s == "" || (!Blank(s[0]) && !Blank(s[|s| - 1]))
  }

  lemma {:induction false} LeftIsTrim(s: string)
    ensures StripLeft(s) == "" || !Blank(StripLeft(s)[0])
  {
    if s != "" && Blank(s[0]) {
      LeftIsTrim(s[1..]);
    }
  }

  lemma {:induction false} RightIsTrim(s: string)
    requires s == "" || !Blank(s[0])
    ensures Trim(StripRight(s))
  {
    if s != "" && Blank(s[|s| - 1]) {
      RightIsTrim(s[..|s| - 1]);
    }
  }

  lemma StripIsTrim(s: string)
    ensures Trim(Strip(s))
  {
    LeftIsTrim(s);
    RightIsTrim(StripLeft(s));
  }

  lemma StripUndoesPadding(x: string)
    requires Trim(x)
    ensures Strip(" " + x + " ") == x
  {
    var padded := " " + x + " ";
    assert padded[1..] == x + " ";
    assert StripLeft(padded) == StripLeft(x + " ");
    if x == "" {
      assert x + " " == " " && " "[1..] == "";
    } else {
      assert (x + " ")[0] == x[0];
      assert (x + " ")[..|x|] == x;
      assert StripRight(x + " ") == StripRight(x);
    }
  }

  /** Spoiling the format of a status never changes what it means, and always shows. */
  lemma MisformattingIsInvisible(status: string)
    ensures Normalized(Misformatted(status)) == Normalized(status)
    ensures Normalized(Misformatted(status)) != Misformatted(status)
  {
    var x := Strip(status);
    StripIsTrim(status);
    assert Trim(Lower(x));
    StripUndoesPadding(Lower(x));
    assert Upper(Lower(x)) == Upper(x);
    assert |Normalized(Misformatted(status))| == |x| < |Misformatted(status)|;
  }

  // ---- cleaning ----

  predicate Valid(row: Row, stations: set<string>) {
    row.session != "" && row.station in stations && row.fee >= 0
  }

  function Cleaned(row: Row): Row {
    row.(status := Normalized(row.status))
  }

  predicate OutOfFormat(row: Row) {
    Normalized(row.status) != row.status
  }

  datatype Cohort = Cohort(sessions: map<string, Row>, observed: multiset<Kind>)

  function Noted(observed: multiset<Kind>, raw: Row): multiset<Kind> {
    if OutOfFormat(raw) then observed + multiset{StatusFormat} else observed
  }

  /** What becomes of a row, before its counts. */
  datatype Fate = Kept | Rejected(kind: Kind) | Conflicting

  function FateOf(sessions: map<string, Row>, row: Row, stations: set<string>): Fate {
    if row.session == "" then Rejected(MissingId)
    else if row.station !in stations then Rejected(UnknownStation)
    else if row.fee < 0 then Rejected(NegativeFee)
    else if row.session !in sessions then Kept
    else if row != sessions[row.session] then Conflicting
    else Rejected(Duplicate)
  }

  function CleanRow(cohort: Cohort, raw: Row, stations: set<string>): Result<Cohort> {
    var row, observed := Cleaned(raw), Noted(cohort.observed, raw);
    match FateOf(cohort.sessions, row, stations)
    case Kept => Ok(Cohort(cohort.sessions[row.session := row], observed))
    case Rejected(kind) => Ok(Cohort(cohort.sessions, observed + multiset{kind}))
    case Conflicting => Err(ConflictingDuplicate)
  }

  function Then(result: Result<Cohort>, raw: Row, stations: set<string>): Result<Cohort> {
    match result
    case Err(problem) => Err(problem)
    case Ok(cohort) => CleanRow(cohort, raw, stations)
  }

  function Clean(rows: seq<Row>, stations: set<string>): Result<Cohort> {
    if rows == [] then Ok(Cohort(map[], multiset{}))
    else Then(Clean(rows[..|rows| - 1], stations), rows[|rows| - 1], stations)
  }

  function Declared(log: seq<LogRow>): multiset<Kind> {
    if log == [] then multiset{} else Declared(log[..|log| - 1]) + multiset{log[|log| - 1].kind}
  }

  predicate LogFits(log: seq<LogRow>, sessions: map<string, Row>) {
    forall k :: 0 <= k < |log| ==> log[k].record in sessions && log[k].action == ActionFor(log[k].kind)
  }

  /** The documented cleaning cohort, or the reason the batch is refused. */
  function Audited(batch: Batch, stations: set<string>): Result<map<string, Row>> {
    match Clean(batch.rows, stations)
    case Err(problem) => Err(problem)
    case Ok(cohort) =>
      if !LogFits(batch.log, cohort.sessions) then Err(UnexpectedLogRow)
      else if cohort.observed != Declared(batch.log) || cohort.observed != batch.manifest.corruptions
      then Err(CountsDoNotReconcile)
      else if |cohort.sessions| != batch.manifest.canonical then Err(CanonicalCountMismatch)
      else Ok(cohort.sessions)
  }

  lemma DeclaredPrefix(log: seq<LogRow>, n: nat)
    requires n <= |log|
    ensures Declared(log[..n]) == if n == 0 then multiset{} else Declared(log[..n - 1]) + multiset{log[n - 1].kind}
  {
    assert n > 0 ==> log[..n][..n - 1] == log[..n - 1];
  }

  lemma CleanPrefix(rows: seq<Row>, n: nat, stations: set<string>)
    requires 0 < n <= |rows|
    ensures Clean(rows[..n], stations) == Then(Clean(rows[..n - 1], stations), rows[n - 1], stations)
  {
    assert rows[..n][..n - 1] == rows[..n - 1];
  }

  lemma CleanNothing(stations: set<string>)
    ensures Clean([], stations) == Ok(Cohort(map[], multiset{}))
  {
  }

  method CleanRows(rows: seq<Row>, stations: set<string>) returns (result: Result<Cohort>)
    ensures result == Clean(rows, stations)
  {
    hide Clean, Normalized;
    var sessions: map<string, Row>, observed: multiset<Kind> := map[], multiset{};
    CleanNothing(stations);
    assert rows[..0] == [];
    for n := 0 to |rows|
      invariant Clean(rows[..n], stations) == Ok(Cohort(sessions, observed))
    {
      CleanPrefix(rows, n + 1, stations);
      var raw := rows[n];
      var row := raw.(status := Normalized(raw.status));
      if row.status != raw.status {
        observed := observed + multiset{StatusFormat};
      }
      if row.session == "" {
        observed := observed + multiset{MissingId};
      } else if row.station !in stations {
        observed := observed + multiset{UnknownStation};
      } else if row.fee < 0 {
        observed := observed + multiset{NegativeFee};
      } else if row.session in sessions {
        if row != sessions[row.session] {
          PrefixRefusals(rows, n + 1, stations);
          return Err(ConflictingDuplicate);
        }
        observed := observed + multiset{Duplicate};
      } else {
        sessions := sessions[row.session := row];
      }
    }
    assert rows[..|rows|] == rows;
    return Ok(Cohort(sessions, observed));
  }

  method CountLog(log: seq<LogRow>, sessions: map<string, Row>) returns (declared: Option<multiset<Kind>>)
    ensures declared == if LogFits(log, sessions) then Some(Declared(log)) else None
  {
    hide Declared;
    var count: multiset<Kind> := multiset{};
    DeclaredPrefix(log, 0);
    for n := 0 to |log|
      invariant count == Declared(log[..n])
      invariant forall k :: 0 <= k < n ==> log[k].record in sessions && log[k].action == ActionFor(log[k].kind)
    {
      DeclaredPrefix(log, n + 1);
      var row := log[n];
      if row.record !in sessions || row.action != ActionFor(row.kind) {
        return None;
      }
      count := count + multiset{row.kind};
    }
    assert log[..|log|] == log;
    return Some(count);
  }

  method CanonicalSessions(batch: Batch, stations: set<string>) returns (result: Result<map<string, Row>>)
    ensures result == Audited(batch, stations)
  {
    hide Clean, Declared, LogFits;
    var cleaned := CleanRows(batch.rows, stations);
    if cleaned.Err? {
      return Err(cleaned.problem);
    }
    var sessions, observed := cleaned.value.sessions, cleaned.value.observed;
    var declared := CountLog(batch.log, sessions);
    if declared.None? {
      return Err(UnexpectedLogRow);
    }
    if observed != declared.value || observed != batch.manifest.corruptions {
      return Err(CountsDoNotReconcile);
    }
    if |sessions| != batch.manifest.canonical {
      return Err(CanonicalCountMismatch);
    }
    return Ok(sessions);
  }

  lemma {:induction false} PrefixRefusals(rows: seq<Row>, n: nat, stations: set<string>)
    requires n <= |rows| && Clean(rows[..n], stations).Err?
    ensures Clean(rows, stations) == Clean(rows[..n], stations)
    decreases |rows|
  {
    if n < |rows| {
      assert rows[..|rows| - 1][..n] == rows[..n];
      PrefixRefusals(rows[..|rows| - 1], n, stations);
    } else {
      assert rows[..n] == rows;
    }
  }

  // ---- what cleaning keeps and what it counts ----

  predicate Counts(row: Row, stations: set<string>) {
    row.session != "" && row.station in stations && row.fee >= 0
  }

  /** What row `n` is counted as; one row may be counted as two kinds. */
  predicate CountedAs(rows: seq<Row>, n: nat, stations: set<string>, kind: Kind)
    requires n < |rows|
  {
    var row := rows[n];
    match kind
    case MissingId => row.session == ""
    case UnknownStation => row.session != "" && row.station !in stations
    case NegativeFee => row.session != "" && row.station in stations && row.fee < 0
    case Duplicate => Counts(row, stations) && exists i :: 0 <= i < n && Counts(rows[i], stations) && rows[i].session == row.session
    case StatusFormat => row.status != Normalized(row.status)
  }

  ghost function RowsOfKind(rows: seq<Row>, stations: set<string>, kind: Kind): set<int> {
    set n | 0 <= n < |rows| && CountedAs(rows, n, stations, kind)
  }

  /** Two rows of one session that count say the same, apart from the format of the status. */
  predicate Agree(a: Row, b: Row) {
    a.(status := Normalized(a.status)) == b.(status := Normalized(b.status))
  }

  predicate Clash(rows: seq<Row>, i: int, j: int, stations: set<string>)
    requires 0 <= i < |rows| && 0 <= j < |rows|
  {
    Counts(rows[i], stations) && Counts(rows[j], stations) && rows[i].session == rows[j].session && !Agree(rows[i], rows[j])
  }

  ghost predicate NoConflict(rows: seq<Row>, stations: set<string>) {
    forall i, j :: 0 <= i < j < |rows| ==> !Clash(rows, i, j, stations)
  }

  /** The sessions are those of the rows that count, each with its rows' content and a normal status. */
  ghost predicate SessionsOf(sessions: map<string, Row>, rows: seq<Row>, stations: set<string>) {
    && (forall id :: id in sessions ==> exists i :: 0 <= i < |rows| && Counts(rows[i], stations) && rows[i].session == id)
    && (forall i :: 0 <= i < |rows| && Counts(rows[i], stations) ==>
          rows[i].session in sessions && sessions[rows[i].session] == rows[i].(status := Normalized(rows[i].status)))
  }

  ghost predicate TalliesOf(observed: multiset<Kind>, rows: seq<Row>, stations: set<string>) {
    forall kind :: observed[kind] == |RowsOfKind(rows, stations, kind)|
  }

  lemma CountedAsBefore(rows: seq<Row>, n: nat, m: nat, stations: set<string>, kind: Kind)
    requires m < n <= |rows|
    ensures CountedAs(rows[..n], m, stations, kind) == CountedAs(rows, m, stations, kind)
  {
    hide Normalized, Counts;
    assert rows[..n][m] == rows[m];
    assert forall i :: 0 <= i < m ==> rows[..n][i] == rows[i];
  }

  lemma OneMoreOfKind(rows: seq<Row>, stations: set<string>, kind: Kind)
    requires rows != []
    ensures var n := |rows| - 1;
      |RowsOfKind(rows, stations, kind)|
        == |RowsOfKind(rows[..n], stations, kind)| + if CountedAs(rows, n, stations, kind) then 1 else 0
  {
    hide CountedAs;
    var n := |rows| - 1;
    var few, all := RowsOfKind(rows[..n], stations, kind), RowsOfKind(rows, stations, kind);
    forall m | 0 <= m < n ensures m in all <==> m in few {
      CountedAsBefore(rows, n, m, stations, kind);
    }
    assert n in all <==> CountedAs(rows, n, stations, kind);
    assert forall m :: m in all ==> 0 <= m <= n;
    hide RowsOfKind;
    assert all - {n} == few;
  }

  lemma NothingTallied(stations: set<string>)
    ensures TalliesOf(multiset{}, [], stations)
  {
    assert forall kind :: RowsOfKind([], stations, kind) == {};
  }

  /** A session is known exactly when a row before counts for it. */
  lemma KnownSessions(rows: seq<Row>, sessions: map<string, Row>, stations: set<string>)
    requires rows != [] && SessionsOf(sessions, rows[..|rows| - 1], stations)
    ensures var n := |rows| - 1;
      rows[n].session in sessions <==> exists i :: 0 <= i < n && Counts(rows[i], stations) && rows[i].session == rows[n].session
  {
    hide Normalized;
    var n, before := |rows| - 1, rows[..|rows| - 1];
    assert forall i :: 0 <= i < n ==> before[i] == rows[i];
    if rows[n].session in sessions {
      var i :| 0 <= i < n && Counts(before[i], stations) && before[i].session == rows[n].session;
      assert Counts(rows[i], stations);
    }
  }

  lemma LastRowIsCounted(rows: seq<Row>, sessions: map<string, Row>, stations: set<string>, observed: multiset<Kind>, kind: Kind)
    requires rows != [] && SessionsOf(sessions, rows[..|rows| - 1], stations)
    ensures var n, fate := |rows| - 1, FateOf(sessions, Cleaned(rows[|rows| - 1]), stations);
      !fate.Conflicting? ==>
        Outcome(observed, rows[n], fate)[kind] == observed[kind] + if CountedAs(rows, n, stations, kind) then 1 else 0
  {
    KnownSessions(rows, sessions, stations);
    hide Normalized, SessionsOf;
  }

  /** The counts after a row with this fate. */
  function Outcome(observed: multiset<Kind>, row: Row, fate: Fate): multiset<Kind> {
    if fate.Rejected? then Noted(observed, row) + multiset{fate.kind} else Noted(observed, row)
  }

  lemma LastRowIsTallied(rows: seq<Row>, sessions: map<string, Row>, stations: set<string>, observed: multiset<Kind>)
    requires rows != [] && SessionsOf(sessions, rows[..|rows| - 1], stations) && TalliesOf(observed, rows[..|rows| - 1], stations)
    requires !FateOf(sessions, Cleaned(rows[|rows| - 1]), stations).Conflicting?
    ensures TalliesOf(Outcome(observed, rows[|rows| - 1], FateOf(sessions, Cleaned(rows[|rows| - 1]), stations)), rows, stations)
  {
    hide Outcome, FateOf, CountedAs, SessionsOf, RowsOfKind;
    forall kind
      ensures Outcome(observed, rows[|rows| - 1], FateOf(sessions, Cleaned(rows[|rows| - 1]), stations))[kind]
        == |RowsOfKind(rows, stations, kind)|
    {
      OneMoreOfKind(rows, stations, kind);
      LastRowIsCounted(rows, sessions, stations, observed, kind);
    }
  }

  lemma LastRowsSession(rows: seq<Row>, sessions: map<string, Row>, stations: set<string>)
    requires rows != [] && SessionsOf(sessions, rows[..|rows| - 1], stations)
    requires !FateOf(sessions, Cleaned(rows[|rows| - 1]), stations).Conflicting?
    ensures var row := Cleaned(rows[|rows| - 1]);
      SessionsOf(if FateOf(sessions, row, stations).Kept? then sessions[row.session := row] else sessions, rows, stations)
  {
    hide Normalized;
    var n, before := |rows| - 1, rows[..|rows| - 1];
    assert forall i :: 0 <= i < n ==> before[i] == rows[i];
    forall id | id in sessions ensures exists i :: 0 <= i < |rows| && Counts(rows[i], stations) && rows[i].session == id {
      var i :| 0 <= i < n && Counts(before[i], stations) && before[i].session == id;
      assert Counts(rows[i], stations);
    }
    forall i | 0 <= i < n && Counts(rows[i], stations)
      ensures rows[i].session in sessions && sessions[rows[i].session] == rows[i].(status := Normalized(rows[i].status)) {
      assert Counts(before[i], stations);
    }
  }

  lemma LastRowDecides(rows: seq<Row>, sessions: map<string, Row>, stations: set<string>)
    requires rows != [] && SessionsOf(sessions, rows[..|rows| - 1], stations) && NoConflict(rows[..|rows| - 1], stations)
    ensures FateOf(sessions, Cleaned(rows[|rows| - 1]), stations).Conflicting? <==> !NoConflict(rows, stations)
  {
    hide Normalized;
    var n, before := |rows| - 1, rows[..|rows| - 1];
    assert forall i :: 0 <= i < n ==> before[i] == rows[i];
    forall i, j | 0 <= i < j < n ensures !Clash(rows, i, j, stations) {
      assert !Clash(before, i, j, stations);
    }
    if Counts(rows[n], stations) && rows[n].session in sessions {
      var i :| 0 <= i < n && Counts(before[i], stations) && before[i].session == rows[n].session;
      assert sessions[rows[n].session] == before[i].(status := Normalized(before[i].status));
      assert Clash(rows, i, n, stations) <==> Cleaned(rows[n]) != sessions[rows[n].session];
    }
  }

  lemma ConflictsStay(rows: seq<Row>, stations: set<string>)
    requires rows != [] && !NoConflict(rows[..|rows| - 1], stations)
    ensures !NoConflict(rows, stations)
  {
    hide Agree;
    var n, before := |rows| - 1, rows[..|rows| - 1];
    var i, j :| 0 <= i < j < n && Clash(before, i, j, stations);
    assert Clash(rows, i, j, stations);
  }

  ghost predicate KeepsWhatCounts(cohort: Cohort, rows: seq<Row>, stations: set<string>) {
    SessionsOf(cohort.sessions, rows, stations) && TalliesOf(cohort.observed, rows, stations)
  }

  lemma LastRowIsCleaned(rows: seq<Row>, cohort: Cohort, stations: set<string>)
    requires rows != [] && KeepsWhatCounts(cohort, rows[..|rows| - 1], stations) && NoConflict(rows[..|rows| - 1], stations)
    ensures var result := CleanRow(cohort, rows[|rows| - 1], stations);
      && (result.Ok? <==> NoConflict(rows, stations))
      && (result.Ok? ==> KeepsWhatCounts(result.value, rows, stations))
  {
    hide Normalized, SessionsOf, TalliesOf, FateOf, NoConflict;
    var fate := FateOf(cohort.sessions, Cleaned(rows[|rows| - 1]), stations);
    LastRowDecides(rows, cohort.sessions, stations);
    if !fate.Conflicting? {
      LastRowsSession(rows, cohort.sessions, stations);
      LastRowIsTallied(rows, cohort.sessions, stations, cohort.observed);
    }
  }

  /** Cleaning keeps one row for every session that has a row that counts, with its status in
      normal form, and counts the others by what is wrong with them; it is refused exactly when
      two rows of one session disagree. */
  lemma {:induction false} CleaningKeepsWhatCounts(rows: seq<Row>, stations: set<string>)
    ensures Clean(rows, stations).Ok? <==> NoConflict(rows, stations)
    ensures Clean(rows, stations).Ok? ==> KeepsWhatCounts(Clean(rows, stations).value, rows, stations)
  {
    hide CleanRow, KeepsWhatCounts, Clash;
    if rows == [] {
      NothingKept(stations);
    } else {
      hide NoConflict;
      CleaningKeepsWhatCounts(rows[..|rows| - 1], stations);
      if Clean(rows[..|rows| - 1], stations).Ok? {
        LastRowIsCleaned(rows, Clean(rows[..|rows| - 1], stations).value, stations);
      } else {
        ConflictsStay(rows, stations);
      }
    }
  }

  lemma NothingKept(stations: set<string>)
    ensures KeepsWhatCounts(Cohort(map[], multiset{}), [], stations)
  {
    NothingTallied(stations);
    hide TalliesOf;
  }

  /** The entries of a log that declare the kind. */
  ghost function EntriesOfKind(log: seq<LogRow>, kind: Kind): set<int> {
    set k | 0 <= k < |log| && log[k].kind == kind
  }

  lemma OneMoreEntry(log: seq<LogRow>, kind: Kind)
    requires log != []
    ensures var n := |log| - 1;
      |EntriesOfKind(log, kind)| == |EntriesOfKind(log[..n], kind)| + if log[n].kind == kind then 1 else 0
  {
    var n := |log| - 1;
    assert forall k :: 0 <= k < n ==> log[..n][k] == log[k];
    assert EntriesOfKind(log, kind) == EntriesOfKind(log[..n], kind) + if log[n].kind == kind then {n} else {};
  }

  lemma {:induction false} DeclaredCounts(log: seq<LogRow>, kind: Kind)
    ensures Declared(log)[kind] == |EntriesOfKind(log, kind)|
  {
    if log == [] {
      assert EntriesOfKind(log, kind) == {};
    } else {
      hide EntriesOfKind;
      DeclaredCounts(log[..|log| - 1], kind);
      OneMoreEntry(log, kind);
    }
  }

  /** The log entry names a session with a row that counts, and what cleaning does about its kind. */
  ghost predicate EntryFits(entry: LogRow, rows: seq<Row>, stations: set<string>) {
    && (exists i :: 0 <= i < |rows| && Counts(rows[i], stations) && rows[i].session == entry.record)
    && entry.action == (if entry.kind.Duplicate? then RemoveDuplicate else if entry.kind.StatusFormat? then Normalize else Quarantine)
  }

  ghost function SessionIds(rows: seq<Row>, stations: set<string>): set<string> {
    set i | 0 <= i < |rows| && Counts(rows[i], stations) :: rows[i].session
  }

  lemma SessionsAreCounted(sessions: map<string, Row>, rows: seq<Row>, stations: set<string>)
    requires SessionsOf(sessions, rows, stations)
    ensures |sessions| == |SessionIds(rows, stations)|
  {
    hide Normalized, Counts;
    forall id ensures id in sessions.Keys <==> id in SessionIds(rows, stations) {
    }
    assert sessions.Keys == SessionIds(rows, stations);
  }

  lemma LogNamesSessions(log: seq<LogRow>, sessions: map<string, Row>, rows: seq<Row>, stations: set<string>)
    requires SessionsOf(sessions, rows, stations)
    ensures LogFits(log, sessions) <==> forall k :: 0 <= k < |log| ==> EntryFits(log[k], rows, stations)
  {
    hide Normalized, Counts;
    forall k | 0 <= k < |log|
      ensures EntryFits(log[k], rows, stations) <==> log[k].record in sessions && log[k].action == ActionFor(log[k].kind)
    {
    }
  }

  lemma SameCounts(a: multiset<Kind>, b: multiset<Kind>)
    ensures a == b <==> forall kind :: a[kind] == b[kind]
  {
  }

  /** The counts of the table, of its log and of the manifest agree, kind by kind. */
  ghost predicate CountsAgree(batch: Batch, stations: set<string>) {
    forall kind :: |RowsOfKind(batch.rows, stations, kind)| == |EntriesOfKind(batch.log, kind)| == batch.manifest.corruptions[kind]
  }

  lemma CountsReconcile(batch: Batch, observed: multiset<Kind>, stations: set<string>)
    requires TalliesOf(observed, batch.rows, stations)
    ensures observed == Declared(batch.log) && observed == batch.manifest.corruptions <==> CountsAgree(batch, stations)
  {
    hide Declared, EntriesOfKind, RowsOfKind;
    forall kind ensures Declared(batch.log)[kind] == |EntriesOfKind(batch.log, kind)| {
      DeclaredCounts(batch.log, kind);
    }
    SameCounts(observed, Declared(batch.log));
    SameCounts(observed, batch.manifest.corruptions);
  }

  /** A batch is accepted exactly when no two rows clash, its log fits, the counts agree for
      every kind, and the manifest has the number of sessions. */
  lemma BatchesAreAudited(batch: Batch, stations: set<string>)
    ensures Audited(batch, stations).Ok? <==>
      && NoConflict(batch.rows, stations)
      && (forall k :: 0 <= k < |batch.log| ==> EntryFits(batch.log[k], batch.rows, stations))
      && CountsAgree(batch, stations)
      && |SessionIds(batch.rows, stations)| == batch.manifest.canonical
    ensures Audited(batch, stations).Ok? ==> SessionsOf(Audited(batch, stations).value, batch.rows, stations)
  {
    hide Clean, Declared, NoConflict, CountsAgree, SessionIds, EntryFits, LogFits, SessionsOf, TalliesOf;
    CleaningKeepsWhatCounts(batch.rows, stations);
    if Clean(batch.rows, stations).Ok? {
      var cohort := Clean(batch.rows, stations).value;
      LogNamesSessions(batch.log, cohort.sessions, batch.rows, stations);
      SessionsAreCounted(cohort.sessions, batch.rows, stations);
      CountsReconcile(batch, cohort.observed, stations);
    }
  }

  // ---- choosing what to corrupt ----

  /** `rules` are the validator's other rules for the cleaned sessions, read against the tables that
      stay as they are; `draw` is the random draw at each row, and `name` makes a corruption identifier
      from a counter. */
  datatype Plan = Plan(stations: set<string>, rules: map<string, Row> -> bool, touched: set<string>,
                       draw: nat -> Option<Kind>, name: nat -> string)

  function Canonical(rows: seq<Row>, n: nat, stations: set<string>): set<string>
    requires n <= |rows|
  {
    if n == 0 then {}
    else
      Canonical(rows, n - 1, stations) + if Valid(rows[n - 1], stations) then {rows[n - 1].session} else {}
  }

  /** The first valid row of a session that no earlier corruption mentions. */
  predicate Eligible(rows: seq<Row>, n: nat, plan: Plan)
    requires n < |rows|
  {
    Valid(rows[n], plan.stations) && rows[n].session !in Canonical(rows, n, plan.stations)
    && rows[n].session !in plan.touched
  }

  function OperationAt(rows: seq<Row>, n: nat, plan: Plan, counter: nat): Option<Operation>
    requires n < |rows|
  {
    if Eligible(rows, n, plan) && plan.draw(n).Some? then
      var kind := plan.draw(n).value;
      Some(Operation(LogRow(plan.name(counter), rows[n].session, kind, ActionFor(kind)), n))
    else None
  }

  function Planned(rows: seq<Row>, n: nat, plan: Plan): seq<Operation>
    requires n <= |rows|
  {
    if n == 0 then []
    else
      var before := Planned(rows, n - 1, plan);
      match OperationAt(rows, n - 1, plan, |before| + 1)
      case None => before
      case Some(operation) => before + [operation]
  }

  /** The operation on row `n`, numbered after all that precede it. */
  function Chosen(rows: seq<Row>, n: nat, plan: Plan): Option<Operation>
    requires n < |rows|
  {
    OperationAt(rows, n, plan, |Planned(rows, n, plan)| + 1)
  }

  function Logs(operations: seq<Operation>): seq<LogRow> {
    seq(|operations|, i requires 0 <= i < |operations| => operations[i].log)
  }

  // ---- writing the corrupted table ----

  function Spoiled(row: Row, log: LogRow): Row {
    match log.kind
    case Duplicate => row
    case StatusFormat => row.(status := Misformatted(row.status))
    case NegativeFee => row.(session := "BAD-" + log.corruption, fee := -100)
    case UnknownStation => row.(session := "BAD-" + log.corruption, station := SENTINEL)
    case MissingId => row.(session := "")
  }

  function Written(row: Row, operation: Option<Operation>): seq<Row> {
    if operation.None? then [row]
    else if operation.value.log.kind.StatusFormat? then [Spoiled(row, operation.value.log)]
    else [row, Spoiled(row, operation.value.log)]
  }

  function Injected(rows: seq<Row>, n: nat, plan: Plan): seq<Row>
    requires n <= |rows|
  {
    if n == 0 then [] else Injected(rows, n - 1, plan) + Written(rows[n - 1], Chosen(rows, n - 1, plan))
  }

  function InjectedBatch(batch: Batch, plan: Plan): Batch {
    var added := Logs(Planned(batch.rows, |batch.rows|, plan));
    Batch(Injected(batch.rows, |batch.rows|, plan), batch.log + added,
          Manifest(batch.manifest.canonical, batch.manifest.corruptions + Declared(added)))
  }

  predicate DistinctIds(log: seq<LogRow>) {
    forall i, j :: 0 <= i < j < |log| ==> log[i].corruption != log[j].corruption
  }

  predicate KnownStatus(status: string) {
    status == "COMPLETED" || status == "WAITING_PAYMENT"
  }

  /** What the independent validator asks of the cleaned sessions. */
  predicate RowsPass(plan: Plan, sessions: map<string, Row>) {
    (forall id :: id in sessions ==> KnownStatus(sessions[id].status)) && plan.rules(sessions)
  }

  /** What it asks of the session table and its log. */
  predicate Accepted(batch: Batch, plan: Plan) {
    Audited(batch, plan.stations).Ok? && DistinctIds(batch.log) && RowsPass(plan, Audited(batch, plan.stations).value)
  }

  predicate IdsCollide(batch: Batch, plan: Plan, n: nat)
    requires n <= |batch.rows|
  {
    exists i, j :: 0 <= i < |Planned(batch.rows, n, plan)| && 0 <= j < |batch.log|
      && Planned(batch.rows, n, plan)[i].log.corruption == batch.log[j].corruption
  }

  predicate SentinelUsed(rows: seq<Row>, n: nat, plan: Plan)
    requires n <= |rows|
  {
    SENTINEL in plan.stations
    && exists i :: 0 <= i < n && Chosen(rows, i, plan).Some? && Chosen(rows, i, plan).value.log.kind.UnknownStation?
  }

  function Injection(batch: Batch, plan: Plan): Result<Batch> {
    var n := |batch.rows|;
    if !Accepted(batch, plan) then Err(InvalidInput)
    else if IdsCollide(batch, plan, n) then Err(CorruptionIdCollision)
    else if |Canonical(batch.rows, n, plan.stations)| != batch.manifest.canonical then Err(SelectionDiffers)
    else if SentinelUsed(batch.rows, n, plan) then Err(SentinelCollision)
    else if !Accepted(InjectedBatch(batch, plan), plan) then Err(InvalidOutput)
    else Ok(InjectedBatch(batch, plan))
  }

  // ---- cleaning after injection ----

  /** Corrupted statuses that were out of format already, and copies of rows
      whose status is out of format: where the log and the table can part. */
  function Already(rows: seq<Row>, n: nat, plan: Plan): nat
    requires n <= |rows|
  {
    if n == 0 then 0
    else
      var operation, row := Chosen(rows, n - 1, plan), rows[n - 1];
      Already(rows, n - 1, plan)
      + if operation.Some? && operation.value.log.kind.StatusFormat? && OutOfFormat(row) then 1 else 0
  }

  function Copied(rows: seq<Row>, n: nat, plan: Plan): nat
    requires n <= |rows|
  {
    if n == 0 then 0
    else
      var operation, row := Chosen(rows, n - 1, plan), rows[n - 1];
      Copied(rows, n - 1, plan)
      + if operation.Some? && !operation.value.log.kind.StatusFormat? && OutOfFormat(row) then 1 else 0
  }

  /** The counts of each kind grow by what was planned, up to statuses out of format before. */
  ghost predicate Balance(before: multiset<Kind>, after: multiset<Kind>, added: multiset<Kind>, already: nat, copied: nat) {
    forall kind :: after[kind] + (if kind.StatusFormat? then already else 0)
      == before[kind] + added[kind] + (if kind.StatusFormat? then copied else 0)
  }

  /** Cleaning the corrupted table sees the same sessions. */
  ghost predicate Tallies(before: Result<Cohort>, after: Result<Cohort>, added: multiset<Kind>, already: nat, copied: nat) {
    && (before.Err? <==> after.Err?)
    && (before.Ok? ==>
         && after.value.sessions == before.value.sessions
         && Balance(before.value.observed, after.value.observed, added, already, copied))
  }

  lemma {:induction false} SessionsAreCanonical(rows: seq<Row>, n: nat, stations: set<string>)
    requires n <= |rows| && Clean(rows[..n], stations).Ok?
    ensures Clean(rows[..n], stations).value.sessions.Keys == Canonical(rows, n, stations)
  {
    hide Clean, Normalized;
    if n == 0 {
      assert rows[..n] == [];
      CleanNothing(stations);
    } else {
      CleanPrefix(rows, n, stations);
      SessionsAreCanonical(rows, n - 1, stations);
    }
  }

  lemma CleanTwo(rows: seq<Row>, a: Row, b: Row, stations: set<string>)
    ensures Clean(rows + [a, b], stations) == Then(Then(Clean(rows, stations), a, stations), b, stations)
  {
    hide CleanRow;
    assert (rows + [a, b])[..|rows| + 1] == rows + [a];
    assert (rows + [a])[..|rows|] == rows;
  }

  lemma RejectionsBalance(before: multiset<Kind>, after: multiset<Kind>, added: multiset<Kind>, already: nat,
                          copied: nat, row: Row, kind: Kind)
    requires Balance(before, after, added, already, copied)
    ensures Balance(Noted(before, row), Noted(after, row), added, already, copied)
    ensures Balance(Noted(before, row), after + multiset{StatusFormat}, added + multiset{StatusFormat},
                    already + (if OutOfFormat(row) then 1 else 0), copied)
    ensures Balance(Noted(before, row), Noted(Noted(after, row), row) + multiset{kind}, added + multiset{kind}, already,
                    copied + if OutOfFormat(row) then 1 else 0)
    ensures Balance(before + multiset{kind}, after + multiset{kind}, added, already, copied)
  {
  }

  /** A row that is left alone is cleaned to the same effect in both tables. */
  lemma PlainRowTallies(before: Result<Cohort>, after: Result<Cohort>, row: Row, stations: set<string>,
                        added: multiset<Kind>, already: nat, copied: nat)
    requires Tallies(before, after, added, already, copied)
    ensures Tallies(Then(before, row, stations), Then(after, row, stations), added, already, copied)
  {
    hide Balance, OutOfFormat, Noted, FateOf;
    if before.Ok? {
      var b, a := before.value.observed, after.value.observed;
      RejectionsBalance(b, a, added, already, copied, row, Duplicate);
      var fate := FateOf(before.value.sessions, Cleaned(row), stations);
      if fate.Rejected? {
        RejectionsBalance(Noted(b, row), Noted(a, row), added, already, copied, row, fate.kind);
      }
    }
  }

  lemma SpoiledIsClean(row: Row, log: LogRow)
    requires log.kind.StatusFormat?
    ensures Cleaned(Spoiled(row, log)) == Cleaned(row) && OutOfFormat(Spoiled(row, log))
  {
    MisformattingIsInvisible(row.status);
  }

  /** A copy of an accepted row is turned away under its own kind. */
  lemma CopyIsRejected(cohort: Cohort, row: Row, log: LogRow, stations: set<string>)
    requires Valid(row, stations) && !log.kind.StatusFormat? && (log.kind.UnknownStation? ==> SENTINEL !in stations)
    requires row.session in cohort.sessions && cohort.sessions[row.session] == Cleaned(row)
    ensures CleanRow(cohort, Spoiled(row, log), stations)
         == Ok(Cohort(cohort.sessions, Noted(cohort.observed, row) + multiset{log.kind}))
  {
    hide Normalized;
  }

  /** The first row of a session is kept. */
  lemma ValidRowIsKept(cohort: Cohort, row: Row, stations: set<string>)
    requires Valid(row, stations) && row.session !in cohort.sessions
    ensures CleanRow(cohort, row, stations)
         == Ok(Cohort(cohort.sessions[row.session := Cleaned(row)], Noted(cohort.observed, row)))
  {
    hide Normalized;
  }

  /** A chosen row whose status is spoiled stands in its own place. */
  lemma SpoiledRowTallies(before: Cohort, after: Cohort, row: Row, log: LogRow, stations: set<string>,
                          added: multiset<Kind>, already: nat, copied: nat)
    requires Valid(row, stations) && row.session !in before.sessions && log.kind.StatusFormat?
    requires Tallies(Ok(before), Ok(after), added, already, copied)
    ensures Tallies(Then(Ok(before), row, stations), Then(Ok(after), Spoiled(row, log), stations),
                    added + multiset{log.kind}, already + (if OutOfFormat(row) then 1 else 0), copied)
  {
    var spoiled := Spoiled(row, log);
    assert Valid(spoiled, stations) && spoiled.session == row.session;
    hide CleanRow, Balance, OutOfFormat, Cleaned, Valid, Spoiled;
    SpoiledIsClean(row, log);
    ValidRowIsKept(before, row, stations);
    ValidRowIsKept(after, spoiled, stations);
    RejectionsBalance(before.observed, after.observed, added, already, copied, row, log.kind);
  }

  /** A chosen row that is copied is followed by the copy, which is turned away. */
  lemma CopiedRowTallies(before: Cohort, after: Cohort, row: Row, log: LogRow, stations: set<string>,
                         added: multiset<Kind>, already: nat, copied: nat)
    requires Valid(row, stations) && row.session !in before.sessions && !log.kind.StatusFormat?
    requires log.kind.UnknownStation? ==> SENTINEL !in stations
    requires Tallies(Ok(before), Ok(after), added, already, copied)
    ensures Tallies(Then(Ok(before), row, stations), Then(Then(Ok(after), row, stations), Spoiled(row, log), stations),
                    added + multiset{log.kind}, already, copied + if OutOfFormat(row) then 1 else 0)
  {
    hide CleanRow, Balance, OutOfFormat, Noted, Cleaned, Valid, Spoiled;
    ValidRowIsKept(before, row, stations);
    ValidRowIsKept(after, row, stations);
    CopyIsRejected(CleanRow(after, row, stations).value, row, log, stations);
    RejectionsBalance(before.observed, after.observed, added, already, copied, row, log.kind);
  }

  lemma ChosenRowTallies(before: Result<Cohort>, after: Result<Cohort>, row: Row, log: LogRow, stations: set<string>,
                         added: multiset<Kind>, already: nat, copied: nat)
    requires Tallies(before, after, added, already, copied)
    requires before.Ok? ==> Valid(row, stations) && row.session !in before.value.sessions
    requires log.kind.UnknownStation? ==> SENTINEL !in stations
    ensures Tallies(Then(before, row, stations),
                    Then(if log.kind.StatusFormat? then after else Then(after, row, stations), Spoiled(row, log), stations),
                    added + multiset{log.kind},
                    already + (if log.kind.StatusFormat? && OutOfFormat(row) then 1 else 0),
                    copied + if !log.kind.StatusFormat? && OutOfFormat(row) then 1 else 0)
  {
    hide CleanRow, Balance, OutOfFormat, Valid, Spoiled;
    if before.Ok? {
      if log.kind.StatusFormat? {
        SpoiledRowTallies(before.value, after.value, row, log, stations, added, already, copied);
      } else {
        CopiedRowTallies(before.value, after.value, row, log, stations, added, already, copied);
      }
    }
  }

  lemma WrittenIsCleaned(written: seq<Row>, row: Row, chosen: Option<Operation>, stations: set<string>)
    ensures chosen.None? ==> Clean(written + Written(row, chosen), stations) == Then(Clean(written, stations), row, stations)
    ensures chosen.Some? ==>
      var log := chosen.value.log;
      Clean(written + Written(row, chosen), stations)
        == if log.kind.StatusFormat? then Then(Clean(written, stations), Spoiled(row, log), stations)
           else Then(Then(Clean(written, stations), row, stations), Spoiled(row, log), stations)
  {
    assert (written + [row])[..|written|] == written;
    if chosen.Some? {
      var spoiled := Spoiled(row, chosen.value.log);
      assert (written + [spoiled])[..|written|] == written;
      CleanTwo(written, row, spoiled, stations);
    }
  }

  lemma OneMoreLog(operations: seq<Operation>, operation: Operation)
    ensures Declared(Logs(operations + [operation])) == Declared(Logs(operations)) + multiset{operation.log.kind}
  {
    assert Logs(operations + [operation])[..|operations|] == Logs(operations);
  }

  lemma NothingTallies(stations: set<string>)
    ensures Tallies(Clean([], stations), Clean([], stations), Declared(Logs([])), 0, 0)
  {
  }

  /** How far the plan, the table and the two exceptional counts get with one more row. */
  lemma OneMoreRow(rows: seq<Row>, n: nat, plan: Plan)
    requires 0 < n <= |rows|
    ensures var row, chosen := rows[n - 1], Chosen(rows, n - 1, plan);
      && Injected(rows, n, plan) == Injected(rows, n - 1, plan) + Written(row, chosen)
      && Planned(rows, n, plan) == Planned(rows, n - 1, plan) + (if chosen.Some? then [chosen.value] else [])
      && Already(rows, n, plan) == Already(rows, n - 1, plan)
           + (if chosen.Some? && chosen.value.log.kind.StatusFormat? && OutOfFormat(row) then 1 else 0)
      && Copied(rows, n, plan) == Copied(rows, n - 1, plan)
           + (if chosen.Some? && !chosen.value.log.kind.StatusFormat? && OutOfFormat(row) then 1 else 0)
      && (chosen.Some? ==> Valid(row, plan.stations) && row.session !in Canonical(rows, n - 1, plan.stations))
  {
    hide Written, OutOfFormat, Valid, Canonical;
  }

  lemma SentinelStaysFree(rows: seq<Row>, n: nat, plan: Plan)
    requires 0 < n <= |rows| && !SentinelUsed(rows, n, plan)
    ensures !SentinelUsed(rows, n - 1, plan)
    ensures var chosen := Chosen(rows, n - 1, plan);
      chosen.Some? && chosen.value.log.kind.UnknownStation? ==> SENTINEL !in plan.stations
  {
    hide Chosen;
  }

  lemma {:induction false} InjectionTallies(rows: seq<Row>, n: nat, plan: Plan)
    requires n <= |rows| && !SentinelUsed(rows, n, plan)
    ensures Tallies(Clean(rows[..n], plan.stations), Clean(Injected(rows, n, plan), plan.stations),
                    Declared(Logs(Planned(rows, n, plan))), Already(rows, n, plan), Copied(rows, n, plan))
  {
    if n == 0 {
      hide Clean, Tallies, Declared, Logs;
      assert rows[..n] == [];
      NothingTallies(plan.stations);
    } else {
      hide *;
      SentinelStaysFree(rows, n, plan);
      InjectionTallies(rows, n - 1, plan);
      NextRowTallies(rows, n, plan);
    }
  }

  lemma NextRowTallies(rows: seq<Row>, n: nat, plan: Plan)
    requires 0 < n <= |rows| && !SentinelUsed(rows, n, plan)
    requires Tallies(Clean(rows[..n - 1], plan.stations), Clean(Injected(rows, n - 1, plan), plan.stations),
                     Declared(Logs(Planned(rows, n - 1, plan))), Already(rows, n - 1, plan), Copied(rows, n - 1, plan))
    ensures Tallies(Clean(rows[..n], plan.stations), Clean(Injected(rows, n, plan), plan.stations),
                    Declared(Logs(Planned(rows, n, plan))), Already(rows, n, plan), Copied(rows, n, plan))
  {
    hide Clean, Tallies, OutOfFormat, Then, Declared, Logs, Spoiled, Injected, Planned, Already, Copied, Chosen, SentinelUsed,
      Written, Canonical, Valid;
    var row, chosen, operations := rows[n - 1], Chosen(rows, n - 1, plan), Planned(rows, n - 1, plan);
    var written, already, copied := Injected(rows, n - 1, plan), Already(rows, n - 1, plan), Copied(rows, n - 1, plan);
    var before, after := Clean(rows[..n - 1], plan.stations), Clean(written, plan.stations);
    OneMoreRow(rows, n, plan);
    CleanPrefix(rows, n, plan.stations);
    WrittenIsCleaned(written, row, chosen, plan.stations);
    if chosen.None? {
      assert operations + [] == operations;
      PlainRowTallies(before, after, row, plan.stations, Declared(Logs(operations)), already, copied);
    } else {
      SentinelStaysFree(rows, n, plan);
      OneMoreLog(operations, chosen.value);
      if before.Ok? { SessionsAreCanonical(rows, n - 1, plan.stations); }
      ChosenRowTallies(before, after, row, chosen.value.log, plan.stations, Declared(Logs(operations)), already, copied);
    }
  }

  // ---- the theorems ----

  lemma {:induction false} PlannedFits(rows: seq<Row>, n: nat, plan: Plan)
    requires n <= |rows|
    ensures forall k :: 0 <= k < |Planned(rows, n, plan)| ==>
      var log := Planned(rows, n, plan)[k].log;
      && log.record in Canonical(rows, n, plan.stations)
      && log.action == ActionFor(log.kind)
      && log.corruption == plan.name(k + 1)
  {
    if n > 0 {
      PlannedFits(rows, n - 1, plan);
    }
  }

  lemma {:induction false} DeclaredJoins(log: seq<LogRow>, more: seq<LogRow>)
    ensures Declared(log + more) == Declared(log) + Declared(more)
  {
    if more == [] {
      assert log + more == log;
    } else {
      assert (log + more)[..|log + more| - 1] == log + more[..|more| - 1];
      DeclaredJoins(log, more[..|more| - 1]);
    }
  }

  lemma BalancedCounts(before: multiset<Kind>, after: multiset<Kind>, added: multiset<Kind>, already: nat, copied: nat)
    requires Balance(before, after, added, already, copied)
    ensures after == before + added <==> already == copied
  {
    if already == copied {
      assert forall kind :: after[kind] == (before + added)[kind];
    } else {
      assert after[StatusFormat] != (before + added)[StatusFormat];
    }
  }

  /** Cleaning the corrupted batch gives the sessions that cleaning the batch
      gave, and the counts reconcile exactly when as many spoiled statuses as
      copied rows were out of format before. */
  lemma CleaningIsUndisturbed(batch: Batch, plan: Plan)
    requires Audited(batch, plan.stations).Ok? && !SentinelUsed(batch.rows, |batch.rows|, plan)
    ensures Audited(InjectedBatch(batch, plan), plan.stations)
         == if Already(batch.rows, |batch.rows|, plan) == Copied(batch.rows, |batch.rows|, plan)
            then Audited(batch, plan.stations) else Err(CountsDoNotReconcile)
  {
    hide Clean, Balance, Planned, Injected, Already, Copied, Declared;
    var rows, n, stations := batch.rows, |batch.rows|, plan.stations;
    assert rows[..n] == rows;
    InjectionTallies(rows, n, plan);
    SessionsAreCanonical(rows, n, stations);
    PlannedFits(rows, n, plan);
    var added := Logs(Planned(rows, n, plan));
    DeclaredJoins(batch.log, added);
    var before, after := Clean(rows, stations).value, Clean(Injected(rows, n, plan), stations).value;
    BalancedCounts(before.observed, after.observed, Declared(added), Already(rows, n, plan), Copied(rows, n, plan));
    forall k | 0 <= k < |batch.log + added|
      ensures (batch.log + added)[k].record in after.sessions
      ensures (batch.log + added)[k].action == ActionFor((batch.log + added)[k].kind)
    {
      if k < |batch.log| {
        assert (batch.log + added)[k] == batch.log[k];
      } else {
        assert (batch.log + added)[k] == Planned(rows, n, plan)[k - |batch.log|].log;
      }
    }
  }

  lemma NamesStayDistinct(batch: Batch, plan: Plan)
    requires DistinctIds(batch.log) && !IdsCollide(batch, plan, |batch.rows|)
    requires forall i: nat, j: nat :: plan.name(i) == plan.name(j) ==> i == j
    ensures DistinctIds(InjectedBatch(batch, plan).log)
  {
    var n, prior := |batch.rows|, batch.log;
    var operations := Planned(batch.rows, n, plan);
    var log := prior + Logs(operations);
    PlannedFits(batch.rows, n, plan);
    hide Planned;
    forall i, j | 0 <= i < j < |log| ensures log[i].corruption != log[j].corruption {
      assert i >= |prior| ==> log[i] == operations[i - |prior|].log;
      assert j >= |prior| ==> log[j] == operations[j - |prior|].log;
      if i < |prior| && j >= |prior| {
        assert log[i] == prior[i] && operations[j - |prior|].log.corruption != prior[i].corruption;
      }
    }
  }

  /** When the injector succeeds. Corruption identifiers differ because they end
      in the operation's number. */
  lemma InjectionSucceedsExactly(batch: Batch, plan: Plan)
    requires forall i: nat, j: nat :: plan.name(i) == plan.name(j) ==> i == j
    ensures var n := |batch.rows|;
      Injection(batch, plan).Ok? <==>
        && Accepted(batch, plan)
        && !IdsCollide(batch, plan, n)
        && !SentinelUsed(batch.rows, n, plan)
        && Already(batch.rows, n, plan) == Copied(batch.rows, n, plan)
    ensures Injection(batch, plan).Ok? ==>
      Audited(Injection(batch, plan).value, plan.stations) == Audited(batch, plan.stations)
    ensures Injection(batch, plan) != Err(SelectionDiffers)
  {
    hide Clean, Planned, Injected, Already, Copied, Declared, DistinctIds, SentinelUsed, IdsCollide, Canonical,
      RowsPass;
    var rows, n := batch.rows, |batch.rows|;
    if Accepted(batch, plan) {
      assert rows[..n] == rows;
      SessionsAreCanonical(rows, n, plan.stations);
      var sessions := Clean(rows, plan.stations).value.sessions;
      assert |sessions| == |sessions.Keys| == |Canonical(rows, n, plan.stations)|;
      if !IdsCollide(batch, plan, n) && !SentinelUsed(rows, n, plan) {
        CleaningIsUndisturbed(batch, plan);
        NamesStayDistinct(batch, plan);
      }
    }
  }

  /** A caller can rule the mismatch out beforehand: when no chosen row has a
      status out of format, the counts reconcile. */
  lemma {:induction false} FormattedRowsReconcile(rows: seq<Row>, n: nat, plan: Plan)
    requires n <= |rows|
    requires forall i :: 0 <= i < n && Chosen(rows, i, plan).Some? ==> !OutOfFormat(rows[i])
    ensures Already(rows, n, plan) == 0 && Copied(rows, n, plan) == 0
  {
    hide Chosen, OutOfFormat;
    if n > 0 {
      FormattedRowsReconcile(rows, n - 1, plan);
    }
  }

  /** A batch whose one misformatted row is not the row its log names; the
      columns that are not looked at are arbitrary. */
  function Mislaid(first: seq<string>, second: seq<string>): Batch {
    Batch([Row("A", "S", 0, "COMPLETED", first), Row("B", "S", 0, "completed", second)],
          [LogRow("c", "A", StatusFormat, Normalize)], Manifest(2, multiset{StatusFormat}))
  }

  /** Its two sessions. */
  function Mislaids(first: seq<string>, second: seq<string>): map<string, Row> {
    map["A" := Row("A", "S", 0, "COMPLETED", first), "B" := Row("B", "S", 0, "COMPLETED", second)]
  }

  function MislaidPlan(rules: map<string, Row> -> bool): Plan {
    Plan({"S"}, rules, {"A"}, n => if n == 1 then Some(Duplicate) else None, (n: nat) => seq(n, _ => 'i'))
  }

  lemma CompletedIsNormal()
    ensures Normalized("COMPLETED") == "COMPLETED" && Normalized("completed") == "COMPLETED"
  {
    assert Strip("COMPLETED") == "COMPLETED" && Strip("completed") == "completed";
    hide Strip;
    assert Upper("COMPLETED") == "COMPLETED" && Upper("completed") == "COMPLETED";
  }

  lemma MislaidIsClean(first: seq<string>, second: seq<string>)
    ensures Clean(Mislaid(first, second).rows, {"S"}) == Ok(Cohort(Mislaids(first, second), multiset{StatusFormat}))
  {
    hide Normalized, Clean;
    CompletedIsNormal();
    var rows := Mislaid(first, second).rows;
    assert rows[..0] == [] && rows[..2] == rows;
    CleanNothing({"S"});
    CleanPrefix(rows, 1, {"S"});
    assert Clean(rows[..1], {"S"}) == Ok(Cohort(map["A" := rows[0]], multiset{}));
    CleanPrefix(rows, 2, {"S"});
    assert "A"[0] != "B"[0];
    assert multiset{} + multiset{StatusFormat} == multiset{StatusFormat};
  }

  lemma MislaidIsAccepted(first: seq<string>, second: seq<string>, rules: map<string, Row> -> bool)
    requires rules(Mislaids(first, second))
    ensures Accepted(Mislaid(first, second), MislaidPlan(rules))
  {
    hide Clean, Declared, Normalized;
    MislaidIsClean(first, second);
    var log, sessions := Mislaid(first, second).log, Mislaids(first, second);
    assert log[..1] == log;
    DeclaredPrefix(log, 0);
    DeclaredPrefix(log, 1);
    assert Declared(log) == multiset{StatusFormat};
    assert "A"[0] != "B"[0];
    assert sessions.Keys == {"A", "B"} && |sessions| == |sessions.Keys|;
  }

  lemma MislaidPlanned(first: seq<string>, second: seq<string>, rules: map<string, Row> -> bool)
    ensures var rows, plan := Mislaid(first, second).rows, MislaidPlan(rules);
      && Planned(rows, 2, plan) == [Operation(LogRow("i", "B", Duplicate, RemoveDuplicate), 1)]
      && Chosen(rows, 0, plan).None?
      && Chosen(rows, 1, plan) == Some(Operation(LogRow("i", "B", Duplicate, RemoveDuplicate), 1))
  {
    hide Strip, Upper, Lower;
    var rows, plan := Mislaid(first, second).rows, MislaidPlan(rules);
    assert Planned(rows, 0, plan) == [];
    assert Chosen(rows, 0, plan).None?;
    assert Planned(rows, 1, plan) == [];
    assert Canonical(rows, 0, plan.stations) == {};
    assert Canonical(rows, 1, plan.stations) == {"A"};
    assert plan.name(1) == "i";
  }

  lemma MislaidCounts(first: seq<string>, second: seq<string>, rules: map<string, Row> -> bool)
    ensures var rows, plan := Mislaid(first, second).rows, MislaidPlan(rules);
      Already(rows, 2, plan) == 0 && Copied(rows, 2, plan) == 1
  {
    hide Normalized, Chosen, Planned;
    CompletedIsNormal();
    MislaidPlanned(first, second, rules);
    var rows, plan := Mislaid(first, second).rows, MislaidPlan(rules);
    assert Already(rows, 1, plan) == 0 && Copied(rows, 1, plan) == 0;
  }

  /** Copying that row leaves a second misformatted status that no log row declares: whatever the other
      columns and the other rules are, as long as they pass the two sessions, the injector accepts the
      batch, writes its corruption, and then refuses it. */
  lemma CopyingMisformattedRowsFails(first: seq<string>, second: seq<string>, rules: map<string, Row> -> bool)
    requires rules(Mislaids(first, second))
    ensures Accepted(Mislaid(first, second), MislaidPlan(rules))
    ensures Injection(Mislaid(first, second), MislaidPlan(rules)) == Err(InvalidOutput)
  {
    hide Already, Copied, Planned, Chosen, Accepted, Canonical, Injected;
    MislaidIsAccepted(first, second, rules);
    MislaidPlanned(first, second, rules);
    MislaidCounts(first, second, rules);
    var batch, plan := Mislaid(first, second), MislaidPlan(rules);
    assert !IdsCollide(batch, plan, 2);
    assert !SentinelUsed(batch.rows, 2, plan);
    InjectionSucceedsExactly(batch, plan);
  }

  function Touched(log: seq<LogRow>): set<string> {
    set k | 0 <= k < |log| :: log[k].record
  }

  // ---- what is corrupted ----

  /** The row counts, and no row before it that counts is of its session. */
  predicate FirstOfSession(rows: seq<Row>, n: nat, stations: set<string>)
    requires n < |rows|
  {
    && rows[n].session != "" && rows[n].station in stations && rows[n].fee >= 0
    && forall i :: 0 <= i < n ==>
         !(rows[i].session == rows[n].session && rows[i].station in stations && rows[i].fee >= 0)
  }

  predicate Names(log: seq<LogRow>, session: string) {
    exists k :: 0 <= k < |log| && log[k].record == session
  }

  /** The row is the first of a session that the log does not name, and was drawn. */
  predicate Hit(rows: seq<Row>, n: nat, log: seq<LogRow>, stations: set<string>, draw: nat -> Option<Kind>)
    requires n < |rows|
  {
    FirstOfSession(rows, n, stations) && !Names(log, rows[n].session) && draw(n).Some?
  }

  /** The entry is that of a hit row, with the kind drawn for it and what cleaning does about it. */
  predicate EntryOf(entry: LogRow, row: Row, drawn: Option<Kind>) {
    && entry.record == row.session && drawn == Some(entry.kind)
    && entry.action == (if entry.kind.Duplicate? then RemoveDuplicate else if entry.kind.StatusFormat? then Normalize else Quarantine)
  }

  /** The entry is that of some hit row. */
  ghost predicate FromHit(entry: LogRow, rows: seq<Row>, log: seq<LogRow>, stations: set<string>, draw: nat -> Option<Kind>) {
    exists n :: 0 <= n < |rows| && Hit(rows, n, log, stations, draw) && EntryOf(entry, rows[n], draw(n))
  }

  /** Some entry is that of the row. */
  ghost predicate HasEntry(row: Row, drawn: Option<Kind>, added: seq<LogRow>) {
    exists k :: 0 <= k < |added| && EntryOf(added[k], row, drawn)
  }

  /** The added entries are those of the hit rows: each session of a hit row has exactly one,
      and no other session has any. */
  ghost predicate EntriesOfHits(rows: seq<Row>, log: seq<LogRow>, stations: set<string>, draw: nat -> Option<Kind>,
                                added: seq<LogRow>) {
    && (forall k :: 0 <= k < |added| ==> FromHit(added[k], rows, log, stations, draw) && !Names(log, added[k].record))
    && (forall n :: 0 <= n < |rows| && Hit(rows, n, log, stations, draw) ==> HasEntry(rows[n], draw(n), added))
    && (forall i, j :: 0 <= i < j < |added| ==> added[i].record != added[j].record)
  }

  lemma {:induction false} CanonicalSessionsAreValid(rows: seq<Row>, n: nat, stations: set<string>, session: string)
    requires n <= |rows|
    ensures session in Canonical(rows, n, stations)
      <==> exists i :: 0 <= i < n && Valid(rows[i], stations) && rows[i].session == session
  {
    if n > 0 {
      CanonicalSessionsAreValid(rows, n - 1, stations, session);
      if exists i :: 0 <= i < n && Valid(rows[i], stations) && rows[i].session == session {
        var i :| 0 <= i < n && Valid(rows[i], stations) && rows[i].session == session;
        assert i == n - 1 || i < n - 1;
      }
    }
  }

  lemma HitsAreChosen(rows: seq<Row>, n: nat, log: seq<LogRow>, plan: Plan)
    requires n < |rows| && plan.touched == Touched(log)
    ensures Hit(rows, n, log, plan.stations, plan.draw) <==> Chosen(rows, n, plan).Some?
    ensures Chosen(rows, n, plan).Some? ==>
      Chosen(rows, n, plan).value.row == n && EntryOf(Chosen(rows, n, plan).value.log, rows[n], plan.draw(n))
  {
    hide Planned, Canonical;
    CanonicalSessionsAreValid(rows, n, plan.stations, rows[n].session);
    assert Names(log, rows[n].session) <==> rows[n].session in Touched(log);
  }

  /** The operations of the chosen rows, in order. */
  ghost predicate ListsTheChosen(all: seq<Operation>, rows: seq<Row>, n: nat, plan: Plan)
    requires n <= |rows|
  {
    && (forall k :: 0 <= k < |all| ==> all[k].row < n && Chosen(rows, all[k].row, plan) == Some(all[k]))
    && (forall i, j :: 0 <= i < j < |all| ==> all[i].row < all[j].row)
    && (forall m :: 0 <= m < n && Chosen(rows, m, plan).Some? ==> Chosen(rows, m, plan).value in all)
  }

  lemma ListsOneMore(all: seq<Operation>, rows: seq<Row>, n: nat, plan: Plan)
    requires n < |rows| && ListsTheChosen(all, rows, n, plan)
    requires Chosen(rows, n, plan).Some? ==> Chosen(rows, n, plan).value.row == n
    ensures var chosen := Chosen(rows, n, plan);
      ListsTheChosen(all + (if chosen.Some? then [chosen.value] else []), rows, n + 1, plan)
  {
    hide Chosen;
    var chosen := Chosen(rows, n, plan);
    var more := all + (if chosen.Some? then [chosen.value] else []);
    forall m | 0 <= m < n + 1 && Chosen(rows, m, plan).Some? ensures Chosen(rows, m, plan).value in more {
      if m == n {
        assert more[|all|] == chosen.value;
      } else {
        assert Chosen(rows, m, plan).value in all;
      }
    }
  }

  lemma PlanGrowsByOne(rows: seq<Row>, n: nat, plan: Plan)
    requires 0 < n <= |rows|
    ensures var chosen := Chosen(rows, n - 1, plan);
      Planned(rows, n, plan) == Planned(rows, n - 1, plan) + (if chosen.Some? then [chosen.value] else [])
  {
    hide Eligible;
  }

  lemma {:induction false} PlanListsTheChosen(rows: seq<Row>, n: nat, plan: Plan)
    requires n <= |rows|
    ensures ListsTheChosen(Planned(rows, n, plan), rows, n, plan)
  {
    hide Planned, Chosen, ListsTheChosen, Canonical, Eligible;
    if n == 0 {
      NothingListed(rows, plan);
    } else {
      PlanListsTheChosen(rows, n - 1, plan);
      PlanGrowsByOne(rows, n, plan);
      ChosenIsItself(rows, n - 1, plan);
      ListsOneMore(Planned(rows, n - 1, plan), rows, n - 1, plan);
    }
  }

  lemma NothingListed(rows: seq<Row>, plan: Plan)
    ensures ListsTheChosen(Planned(rows, 0, plan), rows, 0, plan)
  {
    hide Chosen;
  }

  lemma ChosenIsItself(rows: seq<Row>, n: nat, plan: Plan)
    requires n < |rows|
    ensures Chosen(rows, n, plan).Some? ==> Chosen(rows, n, plan).value.row == n
  {
  }

  lemma FirstsDiffer(rows: seq<Row>, m: nat, n: nat, stations: set<string>)
    requires m < n < |rows| && FirstOfSession(rows, m, stations) && FirstOfSession(rows, n, stations)
    ensures rows[m].session != rows[n].session
  {
  }

  /** Entry `k` is that of the hit row its operation names. */
  lemma OperationIsOfHit(all: seq<Operation>, rows: seq<Row>, log: seq<LogRow>, plan: Plan, k: nat)
    requires plan.touched == Touched(log) && ListsTheChosen(all, rows, |rows|, plan) && k < |all|
    ensures var n := all[k].row;
      && n < |rows| && Hit(rows, n, log, plan.stations, plan.draw) && EntryOf(all[k].log, rows[n], plan.draw(n))
      && all[k].log.record == rows[n].session
  {
    hide Chosen, Hit, EntryOf;
    HitsAreChosen(rows, all[k].row, log, plan);
    RecordOfEntry(all[k].log, rows[all[k].row], plan.draw(all[k].row));
  }

  lemma EntriesDiffer(all: seq<Operation>, rows: seq<Row>, log: seq<LogRow>, plan: Plan, i: nat, j: nat)
    requires plan.touched == Touched(log) && ListsTheChosen(all, rows, |rows|, plan) && i < j < |all|
    ensures all[i].log.record != all[j].log.record && !Names(log, all[i].log.record) && !Names(log, all[j].log.record)
  {
    OperationIsOfHit(all, rows, log, plan, i);
    OperationIsOfHit(all, rows, log, plan, j);
    hide Chosen, EntryOf, FirstOfSession, Names;
    FirstsDiffer(rows, all[i].row, all[j].row, plan.stations);
  }

  lemma HitsHaveEntries(all: seq<Operation>, rows: seq<Row>, log: seq<LogRow>, plan: Plan, n: nat)
    requires plan.touched == Touched(log) && ListsTheChosen(all, rows, |rows|, plan)
    requires n < |rows| && Hit(rows, n, log, plan.stations, plan.draw)
    ensures HasEntry(rows[n], plan.draw(n), Logs(all))
  {
    hide Chosen, EntryOf, Hit;
    HitsAreChosen(rows, n, log, plan);
    var k :| 0 <= k < |all| && all[k] == Chosen(rows, n, plan).value;
    assert EntryOf(Logs(all)[k], rows[n], plan.draw(n));
  }

  lemma EntriesHaveHits(all: seq<Operation>, rows: seq<Row>, log: seq<LogRow>, plan: Plan, k: nat)
    requires plan.touched == Touched(log) && ListsTheChosen(all, rows, |rows|, plan) && k < |all|
    ensures FromHit(all[k].log, rows, log, plan.stations, plan.draw) && !Names(log, all[k].log.record)
  {
    hide EntryOf, Hit, Names, ListsTheChosen;
    OperationIsOfHit(all, rows, log, plan, k);
    UntouchedEntry(rows, all[k].row, log, plan);
  }

  lemma PlannedEntries(rows: seq<Row>, log: seq<LogRow>, plan: Plan)
    requires plan.touched == Touched(log)
    ensures EntriesOfHits(rows, log, plan.stations, plan.draw, Logs(Planned(rows, |rows|, plan)))
  {
    hide Planned, Hit, Names, ListsTheChosen, FromHit, HasEntry, Touched;
    var all := Planned(rows, |rows|, plan);
    var added := Logs(all);
    PlanListsTheChosen(rows, |rows|, plan);
    forall k | 0 <= k < |added| ensures FromHit(added[k], rows, log, plan.stations, plan.draw) && !Names(log, added[k].record) {
      EntriesHaveHits(all, rows, log, plan, k);
    }
    forall n | 0 <= n < |rows| && Hit(rows, n, log, plan.stations, plan.draw) ensures HasEntry(rows[n], plan.draw(n), added) {
      HitsHaveEntries(all, rows, log, plan, n);
    }
    forall i, j | 0 <= i < j < |added| ensures added[i].record != added[j].record {
      EntriesDiffer(all, rows, log, plan, i, j);
    }
  }

  lemma UntouchedEntry(rows: seq<Row>, n: nat, log: seq<LogRow>, plan: Plan)
    requires n < |rows| && Hit(rows, n, log, plan.stations, plan.draw)
    ensures !Names(log, rows[n].session)
  {
    hide Names;
  }

  lemma RecordOfEntry(entry: LogRow, row: Row, drawn: Option<Kind>)
    requires EntryOf(entry, row, drawn)
    ensures entry.record == row.session
  {
  }

  /** What stands for a row in the corrupted table: the row alone, the row with its status
      spoiled, or the row and a corrupted copy. */
  predicate Replaces(piece: seq<Row>, row: Row, entry: Option<LogRow>) {
    if entry.None? then piece == [row] else
      var bad := row.(session := "BAD-" + entry.value.corruption);
      match entry.value.kind
      case StatusFormat => piece == [row.(status := " " + Lower(Strip(row.status)) + " ")]
      case Duplicate => piece == [row, row]
      case NegativeFee => piece == [row, bad.(fee := -100)]
      case UnknownStation => piece == [row, bad.(station := "ST-INJECT-UNKNOWN")]
      case MissingId => piece == [row, row.(session := "")]
  }

  function Flattened(pieces: seq<seq<Row>>): seq<Row> {
    if pieces == [] then [] else Flattened(pieces[..|pieces| - 1]) + pieces[|pieces| - 1]
  }

  /** The entry of a hit row, among those added. */
  ghost predicate FoundFor(entry: Option<LogRow>, rows: seq<Row>, n: nat, log: seq<LogRow>, stations: set<string>,
                           draw: nat -> Option<Kind>, added: seq<LogRow>)
    requires n < |rows|
  {
    if Hit(rows, n, log, stations, draw)
    then entry.Some? && entry.value in added && EntryOf(entry.value, rows[n], draw(n))
    else entry == None
  }

  /** The corrupted table is the old one, row by row, with the hit rows replaced. */
  ghost predicate RowsReplaced(rows: seq<Row>, log: seq<LogRow>, stations: set<string>, draw: nat -> Option<Kind>,
                               added: seq<LogRow>, output: seq<Row>, entries: seq<Option<LogRow>>, pieces: seq<seq<Row>>) {
    && |pieces| == |entries| == |rows| && output == Flattened(pieces)
    && forall n :: 0 <= n < |rows| ==>
         FoundFor(entries[n], rows, n, log, stations, draw, added) && Replaces(pieces[n], rows[n], entries[n])
  }

  lemma WrittenReplaces(row: Row, operation: Option<Operation>)
    ensures Replaces(Written(row, operation), row, if operation.Some? then Some(operation.value.log) else None)
  {
    hide Strip, Lower;
  }

  lemma {:induction false} InjectedIsFlattened(rows: seq<Row>, n: nat, plan: Plan, pieces: seq<seq<Row>>)
    requires n <= |rows| && |pieces| == n && forall i :: 0 <= i < n ==> pieces[i] == Written(rows[i], Chosen(rows, i, plan))
    ensures Injected(rows, n, plan) == Flattened(pieces)
  {
    hide Chosen, Written;
    if n > 0 {
      InjectedIsFlattened(rows, n - 1, plan, pieces[..n - 1]);
    }
  }

  function EntryAt(rows: seq<Row>, n: nat, plan: Plan): Option<LogRow>
    requires n < |rows|
  {
    if Chosen(rows, n, plan).Some? then Some(Chosen(rows, n, plan).value.log) else None
  }

  lemma EntryIsFound(rows: seq<Row>, n: nat, log: seq<LogRow>, plan: Plan, all: seq<Operation>)
    requires n < |rows| && plan.touched == Touched(log) && ListsTheChosen(all, rows, |rows|, plan)
    ensures FoundFor(EntryAt(rows, n, plan), rows, n, log, plan.stations, plan.draw, Logs(all))
  {
    hide Chosen, Hit, EntryOf;
    HitsAreChosen(rows, n, log, plan);
    if Chosen(rows, n, plan).Some? {
      var k :| 0 <= k < |all| && all[k] == Chosen(rows, n, plan).value;
      assert Logs(all)[k] == all[k].log;
    }
  }

  lemma PieceReplaces(rows: seq<Row>, n: nat, plan: Plan)
    requires n < |rows|
    ensures Replaces(Written(rows[n], Chosen(rows, n, plan)), rows[n], EntryAt(rows, n, plan))
  {
    hide Chosen, Written, Replaces;
    WrittenReplaces(rows[n], Chosen(rows, n, plan));
  }

  lemma InjectedReplaces(rows: seq<Row>, log: seq<LogRow>, plan: Plan)
    returns (entries: seq<Option<LogRow>>, pieces: seq<seq<Row>>)
    requires plan.touched == Touched(log)
    ensures RowsReplaced(rows, log, plan.stations, plan.draw, Logs(Planned(rows, |rows|, plan)),
                         Injected(rows, |rows|, plan), entries, pieces)
  {
    hide Chosen, Planned, Written, Replaces, FoundFor, Injected, EntryAt, ListsTheChosen, Logs, Flattened;
    entries := seq(|rows|, i requires 0 <= i < |rows| => EntryAt(rows, i, plan));
    pieces := seq(|rows|, i requires 0 <= i < |rows| => Written(rows[i], Chosen(rows, i, plan)));
    PlanListsTheChosen(rows, |rows|, plan);
    InjectedIsFlattened(rows, |rows|, plan, pieces);
    forall n | 0 <= n < |rows|
      ensures FoundFor(entries[n], rows, n, log, plan.stations, plan.draw, Logs(Planned(rows, |rows|, plan)))
      ensures Replaces(pieces[n], rows[n], entries[n])
    {
      EntryIsFound(rows, n, log, plan, Planned(rows, |rows|, plan));
      PieceReplaces(rows, n, plan);
    }
  }

  /** What the injector does to a batch, said of its rows, its log and the draw: it corrupts the
      first row of every session that was drawn and that the log does not name yet, once, and
      leaves every other row and the old log as they were. */
  ghost predicate CorruptsHitsOnce(batch: Batch, stations: set<string>, draw: nat -> Option<Kind>, result: Batch) {
    && batch.log <= result.log
    && EntriesOfHits(batch.rows, batch.log, stations, draw, result.log[|batch.log|..])
    && exists entries, pieces ::
         RowsReplaced(batch.rows, batch.log, stations, draw, result.log[|batch.log|..], result.rows, entries, pieces)
  }

  /** No session that the log already names is ever corrupted again. */
  lemma OnlyUntouchedSessionsAreCorrupted(batch: Batch, plan: Plan)
    requires plan.touched == Touched(batch.log) && Injection(batch, plan).Ok?
    ensures CorruptsHitsOnce(batch, plan.stations, plan.draw, Injection(batch, plan).value)
  {
    hide Accepted, IdsCollide, SentinelUsed, Planned, Injected, Canonical, EntriesOfHits, RowsReplaced, Declared;
    var added, result := Logs(Planned(batch.rows, |batch.rows|, plan)), Injection(batch, plan).value;
    PlannedEntries(batch.rows, batch.log, plan);
    var entries, pieces := InjectedReplaces(batch.rows, batch.log, plan);
    assert result.log[|batch.log|..] == added;
    assert RowsReplaced(batch.rows, batch.log, plan.stations, plan.draw, result.log[|batch.log|..], result.rows, entries, pieces);
  }

  ghost function Hits(rows: seq<Row>, log: seq<LogRow>, stations: set<string>, draw: nat -> Option<Kind>, n: nat): set<int>
    requires n <= |rows|
  {
    set i | 0 <= i < n && Hit(rows, i, log, stations, draw)
  }

  lemma {:induction false} PlanCountsHits(rows: seq<Row>, n: nat, log: seq<LogRow>, plan: Plan)
    requires n <= |rows| && plan.touched == Touched(log)
    ensures |Planned(rows, n, plan)| == |Hits(rows, log, plan.stations, plan.draw, n)|
  {
    hide Hit, Chosen, Planned, Touched;
    if n == 0 {
      NothingPlanned(rows, plan);
      assert Hits(rows, log, plan.stations, plan.draw, 0) == {};
    } else {
      PlanCountsHits(rows, n - 1, log, plan);
      PlanGrowsByOne(rows, n, plan);
      HitsAreChosen(rows, n - 1, log, plan);
      var all := Hits(rows, log, plan.stations, plan.draw, n);
      assert all - {n - 1} == Hits(rows, log, plan.stations, plan.draw, n - 1);
    }
  }

  lemma NothingPlanned(rows: seq<Row>, plan: Plan)
    ensures Planned(rows, 0, plan) == []
  {
  }

  lemma CollisionsNamed(batch: Batch, plan: Plan)
    requires plan.touched == Touched(batch.log)
    ensures IdsCollide(batch, plan, |batch.rows|) <==>
      exists i, j :: 1 <= i <= |Hits(batch.rows, batch.log, plan.stations, plan.draw, |batch.rows|)| && 0 <= j < |batch.log|
        && plan.name(i) == batch.log[j].corruption
  {
    var all := Planned(batch.rows, |batch.rows|, plan);
    PlannedFits(batch.rows, |batch.rows|, plan);
    PlanCountsHits(batch.rows, |batch.rows|, batch.log, plan);
    hide Planned, Canonical, Hits;
    forall i, j | 1 <= i <= |all| && 0 <= j < |batch.log| && plan.name(i) == batch.log[j].corruption
      ensures IdsCollide(batch, plan, |batch.rows|)
    {
      assert all[i - 1].log.corruption == plan.name(i);
    }
    if IdsCollide(batch, plan, |batch.rows|) {
      var i, j :| 0 <= i < |all| && 0 <= j < |batch.log| && all[i].log.corruption == batch.log[j].corruption;
      assert plan.name(i + 1) == batch.log[j].corruption;
    }
  }

  /** A hit row is to have an unknown station while the sentinel is a known one. */
  ghost predicate SentinelHit(batch: Batch, plan: Plan) {
    "ST-INJECT-UNKNOWN" in plan.stations
    && exists n :: 0 <= n < |batch.rows| && Hit(batch.rows, n, batch.log, plan.stations, plan.draw) && plan.draw(n) == Some(UnknownStation)
  }

  lemma SentinelsNamed(batch: Batch, plan: Plan)
    requires plan.touched == Touched(batch.log)
    ensures SentinelUsed(batch.rows, |batch.rows|, plan) <==> SentinelHit(batch, plan)
  {
    hide Chosen, Hit, Touched;
    forall n | 0 <= n < |batch.rows|
      ensures Hit(batch.rows, n, batch.log, plan.stations, plan.draw) && plan.draw(n) == Some(UnknownStation) <==>
        Chosen(batch.rows, n, plan).Some? && Chosen(batch.rows, n, plan).value.log.kind.UnknownStation?
    {
      HitsAreChosen(batch.rows, n, batch.log, plan);
    }
  }

  /** An accepted batch is refused before anything is written exactly when the names of as many
      corruptions as there are hit rows meet one of its log, or a hit row is to have an unknown
      station while the sentinel is a known one. */
  lemma RefusalsAreExplained(batch: Batch, plan: Plan)
    requires plan.touched == Touched(batch.log) && Accepted(batch, plan)
    ensures Injection(batch, plan) == Err(CorruptionIdCollision) <==>
      exists i, j :: 1 <= i <= |Hits(batch.rows, batch.log, plan.stations, plan.draw, |batch.rows|)| && 0 <= j < |batch.log|
        && plan.name(i) == batch.log[j].corruption
    ensures Injection(batch, plan) == Err(SentinelCollision) ==> SentinelHit(batch, plan)
    ensures SentinelHit(batch, plan) ==>
      Injection(batch, plan) == Err(SentinelCollision) || Injection(batch, plan) == Err(CorruptionIdCollision)
  {
    CollisionsNamed(batch, plan);
    SentinelsNamed(batch, plan);
    var rows, n := batch.rows, |batch.rows|;
    assert rows[..n] == rows;
    hide Planned, Injected, IdsCollide, SentinelUsed, SentinelHit, DistinctIds, RowsPass, Hits, Declared, Clean;
    SessionsAreCanonical(rows, n, plan.stations);
    var sessions := Clean(rows, plan.stations).value.sessions;
    assert |sessions| == |sessions.Keys| == |Canonical(rows, n, plan.stations)|;
  }

  lemma {:induction false} PlansGrow(rows: seq<Row>, m: nat, n: nat, plan: Plan)
    requires m <= n <= |rows|
    ensures Planned(rows, m, plan) <= Planned(rows, n, plan)
  {
    if m < n {
      PlansGrow(rows, m, n - 1, plan);
    }
  }

  lemma CollisionsStay(batch: Batch, plan: Plan, n: nat)
    requires n <= |batch.rows| && IdsCollide(batch, plan, n)
    ensures IdsCollide(batch, plan, |batch.rows|)
  {
    PlansGrow(batch.rows, n, |batch.rows|, plan);
    hide Planned;
    var few, all := Planned(batch.rows, n, plan), Planned(batch.rows, |batch.rows|, plan);
    var i, j :| 0 <= i < |few| && 0 <= j < |batch.log| && few[i].log.corruption == batch.log[j].corruption;
    assert all[i] == few[i];
  }

  /** The first pass: which rows to corrupt, and the canonical identifiers. */
  method Select(batch: Batch, plan: Plan)
    returns (operations: Option<seq<Operation>>, selected: map<nat, Operation>, canonical: set<string>)
    ensures operations.None? <==> IdsCollide(batch, plan, |batch.rows|)
    ensures operations.Some? ==>
      && operations.value == Planned(batch.rows, |batch.rows|, plan)
      && canonical == Canonical(batch.rows, |batch.rows|, plan.stations)
      && forall i :: 0 <= i < |batch.rows| ==>
           Chosen(batch.rows, i, plan) == if i in selected then Some(selected[i]) else None
    ensures operations.Some? && plan.touched == Touched(batch.log) ==>
      EntriesOfHits(batch.rows, batch.log, plan.stations, plan.draw, Logs(operations.value))
  {
    hide Valid, EntriesOfHits, Logs;
    var existing := set k | 0 <= k < |batch.log| :: batch.log[k].corruption;
    var rows := batch.rows;
    var chosen: seq<Operation> := [];
    selected, canonical := map[], {};
    for n := 0 to |rows|
      invariant canonical == Canonical(rows, n, plan.stations)
      invariant chosen == Planned(rows, n, plan) && !IdsCollide(batch, plan, n)
      invariant forall i :: i in selected ==> i < n
      invariant forall i :: 0 <= i < n ==> Chosen(rows, i, plan) == if i in selected then Some(selected[i]) else None
    {
      var row := rows[n];
      if !Valid(row, plan.stations) || row.session in canonical {
        continue;
      }
      canonical := canonical + {row.session};
      if row.session in plan.touched || plan.draw(n).None? {
        continue;
      }
      var kind, corruption := plan.draw(n).value, plan.name(|chosen| + 1);
      var operation := Operation(LogRow(corruption, row.session, kind, ActionFor(kind)), n);
      assert Planned(rows, n + 1, plan) == chosen + [operation];
      if corruption in existing {
        assert Planned(rows, n + 1, plan)[|chosen|].log.corruption == corruption;
        CollisionsStay(batch, plan, n + 1);
        return None, selected, canonical;
      }
      chosen, selected := chosen + [operation], selected[n := operation];
    }
    if plan.touched == Touched(batch.log) { PlannedEntries(rows, batch.log, plan); }
    return Some(chosen), selected, canonical;
  }

  /** The second pass: the corrupted table, unless the sentinel is a real station. */
  method Rewrite(rows: seq<Row>, selected: map<nat, Operation>, plan: Plan) returns (written: Option<seq<Row>>)
    requires forall i :: 0 <= i < |rows| ==> Chosen(rows, i, plan) == if i in selected then Some(selected[i]) else None
    ensures written == if SentinelUsed(rows, |rows|, plan) then None else Some(Injected(rows, |rows|, plan))
  {
    hide Chosen;
    var output: seq<Row> := [];
    for n := 0 to |rows|
      invariant !SentinelUsed(rows, n, plan) && output == Injected(rows, n, plan)
    {
      var row := rows[n];
      assert Chosen(rows, n, plan) == if n in selected then Some(selected[n]) else None;
      if n !in selected {
        output := output + [row];
      } else {
        var log := selected[n].log;
        if log.kind.StatusFormat? {
          output := output + [row.(status := " " + Lower(Strip(row.status)) + " ")];
        } else {
          var extra := row;
          if !log.kind.Duplicate? {
            extra := extra.(session := "BAD-" + log.corruption);
          }
          if log.kind.NegativeFee? {
            extra := extra.(fee := -100);
          } else if log.kind.MissingId? {
            extra := extra.(session := "");
          } else if log.kind.UnknownStation? {
            extra := extra.(station := SENTINEL);
            if extra.station in plan.stations {
              return None;
            }
          }
          output := output + [row, extra];
        }
      }
    }
    return Some(output);
  }

  method InjectDataset(batch: Batch, stations: set<string>, rules: map<string, Row> -> bool,
                       draw: nat -> Option<Kind>, name: nat -> string)
    returns (result: Result<Batch>)
    ensures result == Injection(batch, Plan(stations, rules, Touched(batch.log), draw, name))
    ensures result.Ok? ==> CorruptsHitsOnce(batch, stations, draw, result.value)
  {
    if Injection(batch, Plan(stations, rules, Touched(batch.log), draw, name)).Ok? {
      OnlyUntouchedSessionsAreCorrupted(batch, Plan(stations, rules, Touched(batch.log), draw, name));
    }
    hide CorruptsHitsOnce, EntriesOfHits;
    hide Clean, Canonical, Planned, Injected, Declared, Audited, DistinctIds, SentinelUsed, IdsCollide, Chosen, RowsPass;
    var plan := Plan(stations, rules, Touched(batch.log), draw, name);
    var input := CanonicalSessions(batch, stations);
    if input.Err? || !DistinctIds(batch.log) || !RowsPass(plan, input.value) {
      return Err(InvalidInput);
    }
    var operations, selected, canonical := Select(batch, plan);
    if operations.None? {
      return Err(CorruptionIdCollision);
    }
    if |canonical| != batch.manifest.canonical {
      return Err(SelectionDiffers);
    }
    var rows := Rewrite(batch.rows, selected, plan);
    if rows.None? {
      return Err(SentinelCollision);
    }
    var added := Logs(operations.value);
    var injected := Batch(rows.value, batch.log + added,
                          Manifest(batch.manifest.canonical, batch.manifest.corruptions + Declared(added)));
    var check := CanonicalSessions(injected, stations);
    if check.Err? || !DistinctIds(injected.log) || !RowsPass(plan, check.value) {
      return Err(InvalidOutput);
    }
    return Ok(injected);
  }
}
