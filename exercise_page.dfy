/**
 * The exercise-tracking page (`app/exercise/page.tsx`): a stopwatch that
 * counts seconds while exercising, interval entries stamped with the
 * stopwatch formatted as `MM:SS`, and a save that merges the session
 * into today's daily assessment in the browser-local store.
 */
module ExercisePage {
  import opened Wrappers
  import Seqs
  import Strings
  import opened Records
  import StorageLocal

  /** `Math.floor(seconds / 60)` and `seconds % 60`, each `padStart(2, '0')`, joined by `:`. */
  function FormatTime(seconds: nat): (r: string)
    ensures |r| >= 5 && r[|r| - 3] == ':'
    ensures forall i :: 0 <= i < |r| && i != |r| - 3 ==> '0' <= r[i] <= '9'
  {
    Stamp(seconds / 60, seconds % 60)
  }

  /** `q` and `k` printed, each padded to two digits, joined by `:`. */
  function Stamp(q: nat, k: nat): (r: string)
    requires k < 60
    ensures |r| >= 5 && r[|r| - 3] == ':'
    ensures forall i :: 0 <= i < |r| && i != |r| - 3 ==> '0' <= r[i] <= '9'
  {
    NatToStringShort(k);
    Strings.PadStart2(Strings.NatToString(q)) + ":" + Strings.PadStart2(Strings.NatToString(k))
  }

  /** Numbers below 100 print with at most two digits. */
  lemma NatToStringShort(n: nat)
    requires n < 100
    ensures |Strings.NatToString(n)| <= 2
  {
    if n >= 10 {
      assert Strings.NatToString(n) == Strings.NatToString(n / 10) + [Strings.DigitChar(n % 10)];
    }
  }

  /** Padding with zeros keeps the digits' value. */
  lemma {:induction false} PadKeepsValue(t: string)
    requires forall i :: 0 <= i < |t| ==> '0' <= t[i] <= '9'
    ensures forall i :: 0 <= i < |Strings.PadStart2(t)| ==> '0' <= Strings.PadStart2(t)[i] <= '9'
    ensures Strings.ParseDecimal(Strings.PadStart2(t)) == Strings.ParseDecimal(t)
  {
    var p := Strings.PadStart2(t);
    if |t| == 1 {
      assert p == ['0'] + t;
      Strings.ParseLeadingZero(t);
    } else if |t| == 0 {
      assert p == ['0'] + ['0'];
      Strings.ParseLeadingZero(['0']);
      Strings.ParseLeadingZero([]);
      assert ['0'] + [] == ['0'];
    }
  }

  /**
   * Reading the stamp back gives the elapsed seconds for every input: the
   * seconds field is two digits below 60, and the minutes field, which is
   * never truncated, holds the whole minutes.
   */
  lemma FormatTimeRoundTrip(seconds: nat)
    ensures var r := FormatTime(seconds);
            var m := r[..|r| - 3];
            var s := r[|r| - 2..];
            |s| == 2
            && Strings.ParseDecimal(s) < 60
            && Strings.ParseDecimal(m) * 60 + Strings.ParseDecimal(s) == seconds
  {
    StampReadsBack(seconds / 60, seconds % 60);
    MinutesAndSeconds(seconds, seconds / 60, seconds % 60);
  }

  /** The stamp of `q` minutes and `k < 60` seconds reads back as those two numbers. */
  lemma StampReadsBack(q: nat, k: nat)
    requires k < 60
    ensures var r := Stamp(q, k);
            var m := r[..|r| - 3];
            var s := r[|r| - 2..];
            |s| == 2 && Strings.ParseDecimal(m) == q && Strings.ParseDecimal(s) == k
  {
    StampSplits(q, k);
    ParsePadded(q);
    ParsePadded(k);
  }

  lemma MinutesAndSeconds(x: nat, a: nat, b: nat)
    requires a == x / 60 && b == x % 60
    ensures a * 60 + b == x
  {
  }

  /** The stamp splits back into its two padded fields. */
  lemma StampSplits(q: nat, k: nat)
    requires k < 60
    ensures var r := Stamp(q, k);
            r[..|r| - 3] == Strings.PadStart2(Strings.NatToString(q))
            && r[|r| - 2..] == Strings.PadStart2(Strings.NatToString(k))
  {
    NatToStringShort(k);
    var mins := Strings.PadStart2(Strings.NatToString(q));
    var secs := Strings.PadStart2(Strings.NatToString(k));
    var r := Stamp(q, k);
    assert |secs| == 2 && r == mins + ":" + secs;
    assert r[..|r| - 3] == mins;
    assert r[|r| - 2..] == secs;
  }

  /** A number printed and zero-padded to two places reads back as itself. */
  lemma ParsePadded(n: nat)
    ensures var p := Strings.PadStart2(Strings.NatToString(n));
            (forall i :: 0 <= i < |p| ==> '0' <= p[i] <= '9') && Strings.ParseDecimal(p) == n
  {
    PadKeepsValue(Strings.NatToString(n));
    Strings.ParseNatToString(n);
  }

  /** Under an hour and forty minutes the stamp is exactly `MM:SS`. */
  lemma FormatTimeWidth(seconds: nat)
    requires seconds < 6000
    ensures |FormatTime(seconds)| == 5
  {
    NatToStringShort(seconds / 60);
    NatToStringShort(seconds % 60);
  }

  /** The three tabs of the page. */
  datatype Tab = Pre | During | Post

  /** The initial session: the clock's `HH:MM`, last meal 2 hours ago, hydration 5, no intervals, satisfaction 5. */
  function InitialSession(clockText: string): (r: SessionLog)
    ensures r.preExercise.time == Seqs.Take(clockText, 5) && |r.preExercise.time| <= 5
    ensures r.duringExercise == []
  {
    SessionLog(PreExercise(Seqs.Take(clockText, 5), 2, 5, 0), [], PostExercise(0, 0, 0, 5))
  }

  /** The entry `saveSession` writes for `today`: the stored day (or `{ date }`) with the session set. */
  function SessionDay(stored: seq<DailyAssessment>, today: string, log: SessionLog): (r: DailyAssessment)
    ensures r.date == today && r.exerciseSession == Some(log)
  {
    var existing := StorageLocal.FindByDate(stored, today).GetOr(EmptyAssessment(today));
    existing.(exerciseSession := Some(log))
  }

  class Page {
    var activeTab: Tab
    var session: SessionLog
    var isExercising: bool
    var exerciseTime: nat
    var currentRPE: int
    var talkTest: bool

    /** The page as first rendered; `clockText` is `new Date().toTimeString()`. */
    constructor (clockText: string)
      ensures activeTab == Pre && session == InitialSession(clockText)
      ensures !isExercising && exerciseTime == 0 && currentRPE == 0 && talkTest
    {
      activeTab := Pre;
      session := InitialSession(clockText);
      isExercising := false;
      exerciseTime := 0;
      currentRPE := 0;
      talkTest := true;
    }

    /** One tick of the one-second timer: it counts only while exercising. */
    method Tick()
      modifies this
      ensures exerciseTime == if old(isExercising) then old(exerciseTime) + 1 else old(exerciseTime)
      ensures activeTab == old(activeTab) && session == old(session) && isExercising == old(isExercising)
      ensures currentRPE == old(currentRPE) && talkTest == old(talkTest)
    {
      if isExercising {
        exerciseTime := exerciseTime + 1;
      }
    }

    /** The RPE scale and the talk-test toggle. */
    method SetReadings(rpe: int, talk: bool)
      modifies this
      ensures currentRPE == rpe && talkTest == talk
      ensures activeTab == old(activeTab) && session == old(session)
      ensures isExercising == old(isExercising) && exerciseTime == old(exerciseTime)
    {
      currentRPE := rpe;
      talkTest := talk;
    }

    method StartExercise()
      modifies this
      ensures isExercising && activeTab == During
      ensures session == old(session) && exerciseTime == old(exerciseTime)
      ensures currentRPE == old(currentRPE) && talkTest == old(talkTest)
    {
      isExercising := true;
      activeTab := During;
    }

    /** Stopping pauses the stopwatch without resetting it. */
    method StopExercise()
      modifies this
      ensures !isExercising && activeTab == Post
      ensures session == old(session) && exerciseTime == old(exerciseTime)
      ensures currentRPE == old(currentRPE) && talkTest == old(talkTest)
    {
      isExercising := false;
      activeTab := Post;
    }

    /** Appends one entry stamped with the stopwatch, the current RPE and talk test, and no symptoms. */
    method RecordInterval()
      modifies this
      ensures session.duringExercise == old(session.duringExercise) + [Interval(FormatTime(exerciseTime), currentRPE, talkTest, [])]
      ensures session.preExercise == old(session.preExercise) && session.postExercise == old(session.postExercise)
      ensures activeTab == old(activeTab) && isExercising == old(isExercising) && exerciseTime == old(exerciseTime)
      ensures currentRPE == old(currentRPE) && talkTest == old(talkTest)
    {
      var entry := Interval(FormatTime(exerciseTime), currentRPE, talkTest, []);
      session := session.(duringExercise := session.duringExercise + [entry]);
    }

    /** Merges the session into today's assessment (or a new `{ date: today }`) and saves it. */
    method SaveSession(storage: StorageLocal.HealthStorage, today: string)
      modifies storage
      ensures storage.inBrowser ==>
                storage.daily == Some(StorageLocal.UpsertByDate(old(storage.Assessments()), SessionDay(old(storage.Assessments()), today, session)))
      ensures !storage.inBrowser ==> storage.daily == old(storage.daily)
      ensures storage.scales == old(storage.scales)
    {
      var existing := storage.GetDailyAssessment(today);
      var base := existing.GetOr(EmptyAssessment(today));
      var updated := base.(exerciseSession := Some(session));
      storage.SaveDailyAssessment(updated);
    }
  }

  // ---------------------------------------------------------------------------
  // Properties

  /**
   * After the save, today's entry is the day that was stored (or an empty
   * one) with exactly its exercise session replaced: the merge keeps every
   * other field.
   */
  lemma SavedSessionIsFound(stored: seq<DailyAssessment>, today: string, log: SessionLog)
    ensures var found := StorageLocal.FindByDate(StorageLocal.UpsertByDate(stored, SessionDay(stored, today, log)), today);
            var before := StorageLocal.FindByDate(stored, today);
            found == Some(before.GetOr(EmptyAssessment(today)).(exerciseSession := Some(log)))
  {
    var d := SessionDay(stored, today, log);
    var i := StorageLocal.DateIndex(stored, today);
    var r := StorageLocal.UpsertByDate(stored, d);
    var k := StorageLocal.DateIndex(r, today);
    if i >= 0 {
      assert stored[i].date == today;
      assert StorageLocal.Merge(stored[i], d) == d;
      assert r[i].date == today;
      assert k == i by {
        assert forall j :: 0 <= j < i ==> r[j] == stored[j];
      }
    } else {
      assert r[|stored|] == d;
      assert k == |stored| by {
        assert forall j :: 0 <= j < |stored| ==> r[j] == stored[j];
      }
    }
  }

  /** Two lists whose entries match a date at the same places find that date at the same place. */
  lemma SameDateIndex(s: seq<DailyAssessment>, r: seq<DailyAssessment>, date: string)
    requires |s| <= |r|
    requires forall j :: 0 <= j < |s| ==> (s[j].date == date <==> r[j].date == date)
    requires forall j :: |s| <= j < |r| ==> r[j].date != date
    ensures StorageLocal.DateIndex(s, date) == StorageLocal.DateIndex(r, date)
  {
    var a := StorageLocal.DateIndex(s, date);
    var b := StorageLocal.DateIndex(r, date);
    if a >= 0 {
      assert r[a].date == date;
    }
  }

  /** Saving a session leaves every other date's entry as it was. */
  lemma SaveSessionKeepsOtherDays(stored: seq<DailyAssessment>, today: string, log: SessionLog, other: string)
    requires other != today
    ensures StorageLocal.FindByDate(StorageLocal.UpsertByDate(stored, SessionDay(stored, today, log)), other)
         == StorageLocal.FindByDate(stored, other)
  {
    var d := SessionDay(stored, today, log);
    var i := StorageLocal.DateIndex(stored, today);
    var r := StorageLocal.UpsertByDate(stored, d);
    if i >= 0 {
      assert stored[i].date == today && r[i].date == today;
      assert forall j :: 0 <= j < |stored| && j != i ==> r[j] == stored[j];
    } else {
      assert r == stored + [d];
      assert forall j :: 0 <= j < |stored| ==> r[j] == stored[j];
    }
    SameDateIndex(stored, r, other);
    var k := StorageLocal.DateIndex(stored, other);
    if k >= 0 {
      assert stored[k].date == other;
      assert k != i;
      assert r[k] == stored[k];
    }
  }
}
