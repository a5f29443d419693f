/** The computations inside the render functions of ui.js: time formatting, the timer
    display's progress arithmetic, the lap list's maxed-out rule and the summed totals. */
module Ui {
  import opened Wrappers
  import opened Tasks
  import opened Playlist
  import opened Seqs
  import opened PlaylistShape
  import opened PlaylistProps
  import opened PlaylistLog
  import Duration

  // ---------------------------------------------------------------- formatTime

  function DigitChar(d: nat): (c: char)
    requires d < 10
    ensures '0' <= c <= '9'
  {
    (48 + d) as char
  }

  /** `${n}` for a natural number: its decimal digits, most significant first. */
  function Digits(n: nat): (s: string)
    ensures |s| >= 1 && forall i :: 0 <= i < |s| ==> '0' <= s[i] <= '9'
    decreases n
  {
    if n < 10 then [DigitChar(n)] else Digits(n / 10) + [DigitChar(n % 10)]
  }

  /** The parts that `formatTime` joins: hours, minutes and seconds that are non-zero,
      and the seconds also when both others are zero (ui.js:15-21). */
  function Parts(abs: nat): seq<string> {
    HmsParts(abs / 3600, (abs % 3600) / 60, abs % 60)
  }

  function HmsParts(hours: nat, minutes: nat, seconds: nat): seq<string> {
    Optional(hours > 0, hours, 'h')
    + Optional(minutes > 0, minutes, 'm')
    + Optional(seconds > 0 || (hours == 0 && minutes == 0), seconds, 's')
  }

  /** A part such as "12m", when it is shown. */
  function Optional(shown: bool, x: nat, unit: char): seq<string> {
    if shown then [Digits(x) + [unit]] else []
  }

  /** `parts.join(" ")`. */
  function Join(parts: seq<string>): string
    decreases |parts|
  {
    if |parts| == 0 then ""
    else if |parts| == 1 then parts[0]
    else parts[0] + " " + Join(parts[1..])
  }

  /** `formatTime(totalSeconds)` (ui.js:9-24) on integer seconds. */
  function FormatTime(totalSeconds: int): string {
    if totalSeconds == 0 then "0s"
    else
      var abs := if totalSeconds < 0 then -totalSeconds else totalSeconds;
      var formatted := Join(Parts(abs));
      if totalSeconds < 0 then "-" + formatted else formatted
  }

  // ------------------------------------------------------ reading a duration back

  predicate AllDigits(s: string) {
    forall i :: 0 <= i < |s| ==> '0' <= s[i] <= '9'
  }

  /** The value of a string of decimal digits. */
  function DigitsValue(s: string): nat
    requires AllDigits(s)
    decreases |s|
  {
    if |s| == 0 then 0 else DigitsValue(s[..|s| - 1]) * 10 + (s[|s| - 1] as int - 48)
  }

  /** The seconds a unit letter stands for. */
  function UnitSeconds(c: char): Option<nat> {
    if c == 'h' then Some(3600) else if c == 'm' then Some(60) else if c == 's' then Some(1) else None
  }

  /** One part such as "12m": digits, then a unit letter. */
  function ReadPart(t: string): Option<nat> {
    if |t| < 2 || !AllDigits(t[..|t| - 1]) then None
    else match UnitSeconds(t[|t| - 1])
      case None => None
      case Some(u) => Some(DigitsValue(t[..|t| - 1]) * u)
  }

  /** The total of a sequence of parts, or None if one of them is malformed. */
  function ReadParts(ts: seq<string>): Option<nat>
    decreases |ts|
  {
    if |ts| == 0 then Some(0)
    else match (ReadPart(ts[0]), ReadParts(ts[1..]))
      case (Some(a), Some(b)) => Some(a + b)
      case _ => None
  }

  /** `s.split(" ")`. */
  function Split(s: string): seq<string>
    decreases |s|
  {
    var k := IndexOf(s, ' ');
    if k == -1 then [s] else [s[..k]] + Split(s[k + 1..])
  }

  /** Reads a `formatTime` output back into seconds. */
  function ParseTime(s: string): Option<int> {
    if |s| > 0 && s[0] == '-' then
      match ReadParts(Split(s[1..]))
        case None => None
        case Some(v) => var w: int := v; Some(-w)
    else
      match ReadParts(Split(s))
        case None => None
        case Some(v) => Some(v)
  }

  lemma {:induction false} DigitsRoundTrip(n: nat)
    ensures DigitsValue(Digits(n)) == n
    decreases n
  {
    if n >= 10 {
      DigitsRoundTrip(n / 10);
      var s := Digits(n);
      assert s[..|s| - 1] == Digits(n / 10);
    }
  }

  lemma ReadUnitPart(x: nat, unit: char, u: nat)
    requires UnitSeconds(unit) == Some(u)
    ensures ReadPart(Digits(x) + [unit]) == Some(x * u)
  {
    var t := Digits(x) + [unit];
    assert t[..|t| - 1] == Digits(x);
    DigitsRoundTrip(x);
  }

  lemma IndexOfSpace(a: string, b: string)
    requires ' ' !in a
    ensures IndexOf(a + " " + b, ' ') == |a|
  {
    var s := a + " " + b;
    assert s[|a|] == ' ';
    assert forall i :: 0 <= i < |a| ==> s[i] == a[i];
  }

  /** Splitting a joined list of space-free, non-empty parts gives the parts back. */
  lemma {:induction false} SplitJoin(parts: seq<string>)
    requires |parts| >= 1
    requires forall i :: 0 <= i < |parts| ==> ' ' !in parts[i]
    ensures Split(Join(parts)) == parts
    decreases |parts|
  {
    if |parts| == 1 {
      assert IndexOf(parts[0], ' ') == -1;
    } else {
      var a, b := parts[0], Join(parts[1..]);
      IndexOfSpace(a, b);
      assert (a + " " + b)[..|a|] == a && (a + " " + b)[|a| + 1..] == b;
      SplitJoin(parts[1..]);
    }
  }

  lemma NoSpaceInDigits(x: nat, unit: char)
    requires unit != ' '
    ensures ' ' !in Digits(x) + [unit]
  {
    var t := Digits(x) + [unit];
    forall i | 0 <= i < |t| ensures t[i] != ' ' {
      if i < |t| - 1 { assert t[i] == Digits(x)[i]; }
    }
  }

  lemma ReadPartsAppend(ts: seq<string>, us: seq<string>, x: nat, y: nat)
    requires ReadParts(ts) == Some(x) && ReadParts(us) == Some(y)
    ensures ReadParts(ts + us) == Some(x + y)
    decreases |ts|
  {
    if |ts| > 0 {
      assert (ts + us)[0] == ts[0] && (ts + us)[1..] == ts[1..] + us;
      var v :| ReadParts(ts[1..]) == Some(v);
      ReadPartsAppend(ts[1..], us, v, y);
    } else {
      assert ts + us == us;
    }
  }

  /** A part that is shown reads as its value; one that is left out stands for zero. */
  lemma ReadOptionalPart(shown: bool, x: nat, unit: char, u: nat)
    requires UnitSeconds(unit) == Some(u) && (shown || x == 0)
    ensures ReadParts(Optional(shown, x, unit)) == Some(x * u)
    ensures forall i :: 0 <= i < |Optional(shown, x, unit)| ==> ' ' !in Optional(shown, x, unit)[i]
  {
    if shown {
      ReadUnitPart(x, unit, u);
      NoSpaceInDigits(x, unit);
      assert [Digits(x) + [unit]][1..] == [];
    }
  }

  lemma NoSpaceAppend(ps: seq<string>, qs: seq<string>)
    requires forall i :: 0 <= i < |ps| ==> ' ' !in ps[i]
    requires forall i :: 0 <= i < |qs| ==> ' ' !in qs[i]
    ensures forall i :: 0 <= i < |ps + qs| ==> ' ' !in (ps + qs)[i]
  {
    forall i | 0 <= i < |ps + qs| ensures ' ' !in (ps + qs)[i] {
      if i < |ps| { assert (ps + qs)[i] == ps[i]; } else { assert (ps + qs)[i] == qs[i - |ps|]; }
    }
  }

  lemma Decompose(abs: nat)
    ensures (abs / 3600) * 3600 + ((abs % 3600) / 60) * 60 + abs % 60 == abs
  {
    var q, r := abs / 3600, abs % 3600;
    var m, sec := r / 60, r % 60;
    assert abs == q * 3600 + r;
    assert r == m * 60 + sec;
    assert abs == (q * 60 + m) * 60 + sec;
    assert abs % 60 == sec;
  }

  lemma ReadHmsParts(hours: nat, minutes: nat, seconds: nat)
    ensures ReadParts(HmsParts(hours, minutes, seconds)) == Some(hours * 3600 + minutes * 60 + seconds)
    ensures |HmsParts(hours, minutes, seconds)| >= 1
    ensures forall i :: 0 <= i < |HmsParts(hours, minutes, seconds)| ==> ' ' !in HmsParts(hours, minutes, seconds)[i]
  {
    var ph := Optional(hours > 0, hours, 'h');
    var pm := Optional(minutes > 0, minutes, 'm');
    var ps := Optional(seconds > 0 || (hours == 0 && minutes == 0), seconds, 's');
    ReadOptionalPart(hours > 0, hours, 'h', 3600);
    ReadOptionalPart(minutes > 0, minutes, 'm', 60);
    ReadOptionalPart(seconds > 0 || (hours == 0 && minutes == 0), seconds, 's', 1);
    ReadPartsAppend(ph, pm, hours * 3600, minutes * 60);
    ReadPartsAppend(ph + pm, ps, hours * 3600 + minutes * 60, seconds);
    NoSpaceAppend(ph, pm);
    NoSpaceAppend(ph + pm, ps);
    assert |ps| == 0 ==> |ph| + |pm| >= 1;
  }

  lemma ReadPartsOf(abs: nat)
    ensures ReadParts(Parts(abs)) == Some(abs)
    ensures |Parts(abs)| >= 1 && forall i :: 0 <= i < |Parts(abs)| ==> ' ' !in Parts(abs)[i]
  {
    ReadHmsParts(abs / 3600, (abs % 3600) / 60, abs % 60);
    Decompose(abs);
  }

  /** `formatTime` loses nothing: its output reads back as the seconds it was given. */
  lemma FormatTimeRoundTrip(n: int)
    ensures ParseTime(FormatTime(n)) == Some(n)
  {
    if n == 0 {
      ZeroRoundTrip();
    } else {
      NonZeroRoundTrip(n);
    }
  }

  lemma ZeroRoundTrip()
    ensures ParseTime(FormatTime(0)) == Some(0)
  {
    assert IndexOf("0s", ' ') == -1;
    assert "0s"[..1] == "0";
    ReadUnitPart(0, 's', 1);
  }

  lemma NonZeroRoundTrip(n: int)
    requires n != 0
    ensures ParseTime(FormatTime(n)) == Some(n)
  {
    var abs := if n < 0 then -n else n;
    JoinReadsBack(abs);
    var f := Join(Parts(abs));
    assert FormatTime(n) == if n < 0 then "-" + f else f;
    if n < 0 {
      assert ("-" + f)[1..] == f;
    }
  }

  /** The joined parts of a magnitude start with a digit and read back as that magnitude. */
  lemma JoinReadsBack(abs: nat)
    ensures |Join(Parts(abs))| > 0 && Join(Parts(abs))[0] != '-'
    ensures ReadParts(Split(Join(Parts(abs)))) == Some(abs)
  {
    ReadPartsOf(abs);
    SplitJoin(Parts(abs));
    JoinStartsWithDigit(Parts(abs), abs);
  }

  lemma JoinStartsWithDigit(parts: seq<string>, abs: nat)
    requires parts == Parts(abs)
    ensures |Join(parts)| > 0 && '0' <= Join(parts)[0] <= '9'
  {
    var hours, minutes, seconds := abs / 3600, (abs % 3600) / 60, abs % 60;
    assert parts == HmsParts(hours, minutes, seconds);
    var x := if hours > 0 then hours else if minutes > 0 then minutes else seconds;
    var u := if hours > 0 then 'h' else if minutes > 0 then 'm' else 's';
    assert parts[0] == Digits(x) + [u];
    assert (Digits(x) + [u])[0] == Digits(x)[0];
    if |parts| > 1 {
      assert Join(parts) == parts[0] + " " + Join(parts[1..]);
    }
  }

  lemma DigitExamples()
    ensures Digits(1) == "1" && Digits(5) == "5"
    ensures Optional(true, 5, 's') == ["5s"] && Optional(true, 1, 's') == ["1s"]
    ensures Optional(true, 1, 'm') == ["1m"] && Optional(true, 1, 'h') == ["1h"]
  {
    assert Digits(5) + ['s'] == "5s" && Digits(1) + ['s'] == "1s";
    assert Digits(1) + ['m'] == "1m" && Digits(1) + ['h'] == "1h";
  }

  /** The examples the formatter is documented with (test/ui.test.js:9-26). */
  lemma FormatTimeExamples()
    ensures FormatTime(0) == "0s"
    ensures FormatTime(5) == "5s"
    ensures FormatTime(65) == "1m 5s"
    ensures FormatTime(3600) == "1h"
    ensures FormatTime(3661) == "1h 1m 1s"
    ensures FormatTime(-3661) == "-1h 1m 1s"
  {
    FormatSeconds();
    FormatMinutes();
    FormatHour();
    FormatHourMinuteSecond();
    FormatTimeNegative(3661);
  }

  lemma FormatSeconds()
    ensures FormatTime(5) == "5s"
  {
    DigitExamples();
    assert HmsParts(0, 0, 5) == [] + [] + ["5s"];
  }

  lemma FormatMinutes()
    ensures FormatTime(65) == "1m 5s"
  {
    DigitExamples();
    assert HmsParts(0, 1, 5) == [] + ["1m"] + ["5s"];
    assert Join(["1m", "5s"]) == "1m" + " " + Join(["5s"]);
  }

  lemma FormatHour()
    ensures FormatTime(3600) == "1h"
  {
    DigitExamples();
    assert HmsParts(1, 0, 0) == ["1h"] + [] + [];
  }

  lemma FormatHourMinuteSecond()
    ensures FormatTime(3661) == "1h 1m 1s"
  {
    DigitExamples();
    assert HmsParts(1, 1, 1) == ["1h"] + ["1m"] + ["1s"];
    assert Join(["1h", "1m", "1s"]) == "1h" + " " + Join(["1m", "1s"]);
    assert Join(["1m", "1s"]) == "1m" + " " + Join(["1s"]);
  }

  /** A negative duration is shown as its magnitude with a leading minus sign. */
  lemma FormatTimeNegative(n: int)
    requires n > 0
    ensures FormatTime(-n) == "-" + FormatTime(n)
  {
  }

  /** Two different durations are never shown the same way. */
  lemma FormatTimeInjective(a: int, b: int)
    requires FormatTime(a) == FormatTime(b)
    ensures a == b
  {
    FormatTimeRoundTrip(a);
    FormatTimeRoundTrip(b);
  }

  // ------------------------------------------------------ updateTimerDisplay

  /** `whole > 0 ? Math.floor((part / whole) * 100) : 0`, on exact rationals. */
  function Percent(part: int, whole: int): (r: int)
    ensures whole > 0 && 0 <= part <= whole ==> 0 <= r <= 100
    ensures whole > 0 && part == whole ==> r == 100
    ensures whole <= 0 ==> r == 0
  {
    if whole > 0 then PercentBounds(part, whole); (part * 100) / whole else 0
  }

  /** Multiplying by a positive number keeps an order. */
  lemma MulMonotone(a: int, b: int, c: int)
    requires c > 0 && a <= b
    ensures a * c <= b * c
  {
  }

  /** A part of a positive whole is between 0 and 100 percent of it, and the whole is 100. */
  lemma PercentBounds(part: int, whole: int)
    requires whole > 0
    ensures 0 <= part <= whole ==> 0 <= (part * 100) / whole <= 100
    ensures part == whole ==> (part * 100) / whole == 100
  {
    var q := (part * 100) / whole;
    if 0 <= part <= whole {
      if q < 0 { MulMonotone(q, -1, whole); }
      if q > 100 { MulMonotone(101, q, whole); }
      if part == whole && q < 100 { MulMonotone(q, 99, whole); }
    }
  }

  /** What the timer display shows for the entry being run (ui.js:339-399). */
  datatype Progress = Progress(
    elapsed: int, taskPercent: int, sessionTotalTime: int,
    lapElapsed: int, lapRemaining: int, lapPercent: int,
    activeLapNumber: Option<nat>, totalActiveLaps: nat, taskIndexInLap: nat, totalTasksInLap: nat,
    sessionElapsed: int, sessionRemaining: int, sessionPercent: int)

  /** The cached lap tables cover the lap of every entry. */
  predicate LapsIndexed(d: PlaylistData) {
    forall e :: e in d.playlist ==> e.lap < |d.lapDurations| && e.lap < |d.lapStartCumulativeDurations|
  }

  function GetOr(m: map<TaskId, int>, id: TaskId): int {
    if id in m then m[id] else 0
  }

  /** The numbers updateTimerDisplay writes, or None where it returns without drawing: no
      current entry (index -1, or an index the playlist does not have). */
  function Display(d: PlaylistData, index: int, timeLeft: int, completedDurations: map<TaskId, int>): (r: Option<Progress>)
    requires LapsIndexed(d)
    ensures r.None? <==> !(0 <= index < |d.playlist|)
    ensures r.Some? ==> r.value.elapsed + timeLeft == d.playlist[index].calculatedDuration
    ensures r.Some? ==> r.value.lapElapsed + r.value.lapRemaining == d.lapDurations[d.playlist[index].lap]
    ensures r.Some? ==> r.value.sessionElapsed + r.value.sessionRemaining == d.totalSessionDuration
    ensures r.Some? ==> r.value.sessionTotalTime == GetOr(completedDurations, d.playlist[index].taskId) + r.value.elapsed
  {
    if index == -1 || !(0 <= index < |d.playlist|) then None
    else
      var e := d.playlist[index];
      assert e in d.playlist;
      var elapsed := e.calculatedDuration - timeLeft;
      var before := if index < |d.cumulativeSessionDurations| then d.cumulativeSessionDurations[index] else 0;
      var lapDuration := d.lapDurations[e.lap];
      var lapElapsed := before - d.lapStartCumulativeDurations[e.lap] + elapsed;
      var sessionElapsed := before + elapsed;
      Some(Progress(
        elapsed, Percent(elapsed, e.calculatedDuration), GetOr(completedDurations, e.taskId) + elapsed,
        lapElapsed, lapDuration - lapElapsed, Percent(lapElapsed, lapDuration),
        if e.lap in d.activeLapMap then Some(d.activeLapMap[e.lap]) else None,
        d.totalActiveLaps, e.taskIndexInLap, e.totalTasksInLap,
        sessionElapsed, d.totalSessionDuration - sessionElapsed, Percent(sessionElapsed, d.totalSessionDuration)))
  }

  lemma ExpandLapsIndexed(taskMap: map<TaskId, Task>, lapList: seq<TaskId>, totalLaps: nat)
    requires NonNegativeDurations(taskMap)
    ensures LapsIndexed(Expand(taskMap, lapList, totalLaps))
  {
    var r := Expand(taskMap, lapList, totalLaps);
    forall e | e in r.playlist ensures e.lap < |r.lapDurations| && e.lap < |r.lapStartCumulativeDurations| {
      var k :| 0 <= k < |r.playlist| && r.playlist[k] == e;
      EntryWithinLap(taskMap, lapList, totalLaps, k);
    }
  }

  /** On a playlist built for the session, while the current entry's time left lies between
      zero and its duration, every bar lies between 0 and 100 percent, no time elapsed or
      remaining is negative, the session's elapsed time is the length of the entries before
      the current one plus the current one's elapsed time, and the lap label names one of the
      active laps. */
  lemma DisplayBounds(taskMap: map<TaskId, Task>, lapList: seq<TaskId>, totalLaps: nat, index: nat,
                      timeLeft: int, completedDurations: map<TaskId, int>)
    requires NonNegativeDurations(taskMap)
    requires index < |Expand(taskMap, lapList, totalLaps).playlist|
    requires 0 <= timeLeft <= Expand(taskMap, lapList, totalLaps).playlist[index].calculatedDuration
    ensures LapsIndexed(Expand(taskMap, lapList, totalLaps))
    ensures var d := Expand(taskMap, lapList, totalLaps);
            var r := Display(d, index, timeLeft, completedDurations);
            r.Some?
            && 0 <= r.value.taskPercent <= 100 && 0 <= r.value.lapPercent <= 100 && 0 <= r.value.sessionPercent <= 100
            && 0 <= r.value.elapsed && 0 <= r.value.lapElapsed && 0 <= r.value.lapRemaining
            && 0 <= r.value.sessionElapsed && 0 <= r.value.sessionRemaining
            && r.value.sessionElapsed == SumEntries(d.playlist[..index]) + r.value.elapsed
            && r.value.activeLapNumber.Some? && 1 <= r.value.activeLapNumber.value <= r.value.totalActiveLaps
            && 1 <= r.value.taskIndexInLap <= r.value.totalTasksInLap
  {
    var d := Expand(taskMap, lapList, totalLaps);
    ExpandLapsIndexed(taskMap, lapList, totalLaps);
    EntryWithinLap(taskMap, lapList, totalLaps, index);
    EntryFacts(taskMap, lapList, totalLaps, index);
    BucketsNonNegative(taskMap, lapList, totalLaps);
    SumNonNegative(d.playlist[..index]);
    DisplayWithin(d, index, timeLeft, completedDurations);
  }

  /** The display's bounds follow from the current entry lying inside its lap and the session. */
  lemma DisplayWithin(d: PlaylistData, index: nat, timeLeft: int, completedDurations: map<TaskId, int>)
    requires LapsIndexed(d) && index < |d.playlist| && index < |d.cumulativeSessionDurations|
    requires var e := d.playlist[index];
             var c := d.cumulativeSessionDurations[index];
             0 <= timeLeft <= e.calculatedDuration
             && 0 <= c && d.lapStartCumulativeDurations[e.lap] <= c
             && c + e.calculatedDuration <= d.lapStartCumulativeDurations[e.lap] + d.lapDurations[e.lap]
             && c + e.calculatedDuration <= d.totalSessionDuration
             && e.lap in d.activeLapMap && 1 <= d.activeLapMap[e.lap] <= d.totalActiveLaps
             && 1 <= e.taskIndexInLap <= e.totalTasksInLap
    ensures var r := Display(d, index, timeLeft, completedDurations);
            r.Some?
            && 0 <= r.value.taskPercent <= 100 && 0 <= r.value.lapPercent <= 100 && 0 <= r.value.sessionPercent <= 100
            && 0 <= r.value.elapsed && 0 <= r.value.lapElapsed && 0 <= r.value.lapRemaining
            && 0 <= r.value.sessionElapsed && 0 <= r.value.sessionRemaining
            && r.value.sessionElapsed == d.cumulativeSessionDurations[index] + r.value.elapsed
            && r.value.activeLapNumber.Some? && 1 <= r.value.activeLapNumber.value <= r.value.totalActiveLaps
            && 1 <= r.value.taskIndexInLap <= r.value.totalTasksInLap
  {
  }

  /** What the display needs to know about one entry of a built playlist. */
  lemma EntryFacts(taskMap: map<TaskId, Task>, lapList: seq<TaskId>, totalLaps: nat, index: nat)
    requires index < |Expand(taskMap, lapList, totalLaps).playlist|
    ensures var d := Expand(taskMap, lapList, totalLaps);
            var e := d.playlist[index];
            index < |d.cumulativeSessionDurations|
            && d.cumulativeSessionDurations[index] == SumEntries(d.playlist[..index])
            && e.lap in d.activeLapMap && 1 <= d.activeLapMap[e.lap] <= d.totalActiveLaps
            && 1 <= e.taskIndexInLap <= e.totalTasksInLap
  {
    var d := Expand(taskMap, lapList, totalLaps);
    PrefixSums(taskMap, lapList, totalLaps);
    ActiveLapNumbers(taskMap, lapList, totalLaps);
    LapPositions(taskMap, lapList, totalLaps);
    var e := d.playlist[index];
    assert |LapEntries(d.playlist, e.lap)| > 0;
    assert e.lap < totalLaps by {
      EntryWithinLapBound(taskMap, lapList, totalLaps, index);
    }
  }

  lemma EntryWithinLapBound(taskMap: map<TaskId, Task>, lapList: seq<TaskId>, totalLaps: nat, index: nat)
    requires index < |Expand(taskMap, lapList, totalLaps).playlist|
    ensures Expand(taskMap, lapList, totalLaps).playlist[index].lap < totalLaps
  {
    ExpandLog(taskMap, lapList, totalLaps);
    var d := Expand(taskMap, lapList, totalLaps);
    var b := FirstPass(taskMap, lapList, totalLaps);
    assert Log(b.buckets)[index].lap < totalLaps;
  }

  // ------------------------------------------------------------ renderLapList

  /** The "maxed-out" mark on a lap-list row (ui.js:191-196): only while a session runs. */
  predicate MaxedOut(sessionActive: bool, t: Task, completedOccurrences: map<TaskId, nat>) {
    sessionActive && t.maxOccurrences > 0 && Occ(completedOccurrences, t.id) >= t.maxOccurrences
  }

  /** The lap list's total (ui.js:158-162): the base durations of the listed tasks, a listed id
      with no task counting zero. */
  function LapListDuration(lapList: seq<TaskId>, taskMap: map<TaskId, Task>): int
    decreases |lapList|
  {
    if |lapList| == 0 then 0
    else
      var id := lapList[|lapList| - 1];
      LapListDuration(lapList[..|lapList| - 1], taskMap) + (if id in taskMap then taskMap[id].duration else 0)
  }

  /** renderTaskSummary's total (ui.js:51): the sum of all task durations. */
  function TaskSummaryDuration(tasks: seq<Task>): int
    decreases |tasks|
  {
    if |tasks| == 0 then 0 else TaskSummaryDuration(tasks[..|tasks| - 1]) + tasks[|tasks| - 1].duration
  }

  lemma {:induction false} TaskSummaryConcat(a: seq<Task>, b: seq<Task>)
    ensures TaskSummaryDuration(a + b) == TaskSummaryDuration(a) + TaskSummaryDuration(b)
    decreases |b|
  {
    if |b| == 0 {
      assert a + b == a;
    } else {
      assert (a + b)[..|a + b| - 1] == a + b[..|b| - 1];
      TaskSummaryConcat(a, b[..|b| - 1]);
    }
  }

  /** The lap list's total is the length of the first lap: on lap 0 every listed task runs once,
      at its base duration, when ids are not repeated and every base duration is a valid
      form value (so the growth clamp leaves it alone). */
  lemma LapListIsFirstLap(taskMap: map<TaskId, Task>, lapList: seq<TaskId>, totalLaps: nat)
    requires NoDup(lapList) && totalLaps > 0
    requires forall id :: id in taskMap ==> MinDurationSeconds <= taskMap[id].duration <= MaxDurationSeconds
    ensures Expand(taskMap, lapList, totalLaps).lapDurations[0] == LapListDuration(lapList, taskMap)
  {
    var b := FirstPass(taskMap, lapList, totalLaps);
    LapDurationsAt(b.buckets);
    BucketOf(taskMap, lapList, totalLaps, 0);
    ScanLapFilters(taskMap, 0, lapList, Empty);
    FirstLapSum(taskMap, lapList);
  }

  lemma {:induction false} FirstLapSum(taskMap: map<TaskId, Task>, ids: seq<TaskId>)
    requires forall id :: id in taskMap ==> MinDurationSeconds <= taskMap[id].duration <= MaxDurationSeconds
    ensures SumFired(Filtered(taskMap, 0, ids, Empty)) == LapListDuration(ids, taskMap)
    decreases |ids|
  {
    if |ids| > 0 {
      var front, id := ids[..|ids| - 1], ids[|ids| - 1];
      FirstLapSum(taskMap, front);
      var a := Filtered(taskMap, 0, front, Empty);
      if id in taskMap {
        assert Fires(taskMap, 0, id, Empty);
        Duration.FirstOccurrenceKeepsBase(taskMap[id].duration, taskMap[id].growthFactor);
        var f := FiredOf(taskMap, id, Empty);
        assert f.calculatedDuration == taskMap[id].duration;
        assert (a + [f])[..|a + [f]| - 1] == a;
      } else {
        assert a + [] == a;
      }
    }
  }
}
