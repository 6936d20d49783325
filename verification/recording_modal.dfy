/** The voice-recording modal: the `MM:SS` clock it shows, and the
    bookkeeping of the active recording, the elapsed time and the ticker
    that polls the recorder. The recorder itself is abstract: a recording
    is represented by the uri it will report, a stop either succeeds or
    throws, and a tick delivers the recorder's status. */
module Recording {
  import opened Types
  import opened JsText

  // ----- the clock -----

  /** A minutes count and a seconds count, each padded to two digits and
      joined by a colon. */
  function Clock(minutes: nat, seconds: nat): (r: string)
    requires seconds < 60
    ensures |r| >= 5 && r[|r| - 3] == ':'
    ensures r[..|r| - 3] == PadStart2(Decimal(minutes)) && r[|r| - 2..] == PadStart2(Decimal(seconds))
  {
    var m := PadStart2(Decimal(minutes));
    var sec := PadStart2(Decimal(seconds));
    assert |sec| == 2;
    m + ":" + sec
  }

  /** `fmt(ms)`: whole minutes, padded to two digits, a colon, then the
      remaining whole seconds padded to two digits. */
  function Fmt(ms: nat): (r: string)
    ensures |r| >= 5 && r[|r| - 3] == ':'
  {
    var s := ms / 1000;
    Clock(s / 60, s % 60)
  }

  /** Reads a clock string back as a number of seconds: digits, a colon,
      then exactly two digits. */
  function ParseClock(r: string): Option<nat> {
    if |r| >= 4 && r[|r| - 3] == ':' && AllDigits(r[..|r| - 3]) && AllDigits(r[|r| - 2..])
    then Some(60 * DecimalValue(r[..|r| - 3]) + DecimalValue(r[|r| - 2..]))
    else None
  }

  /** The seconds field is two digits below 60, and the minutes field holds
      the whole minutes, however many there are. */
  lemma FmtFields(ms: nat)
    ensures AllDigits(Fmt(ms)[..|Fmt(ms)| - 3]) && DecimalValue(Fmt(ms)[..|Fmt(ms)| - 3]) == ms / 1000 / 60
    ensures AllDigits(Fmt(ms)[|Fmt(ms)| - 2..]) && DecimalValue(Fmt(ms)[|Fmt(ms)| - 2..]) == ms / 1000 % 60
    ensures DecimalValue(Fmt(ms)[|Fmt(ms)| - 2..]) < 60
  {
    var s := ms / 1000;
    PadDecimal(s / 60);
    PadDecimal(s % 60);
  }

  /** Reading the clock back gives the whole seconds of `ms`: nothing but
      the milliseconds is lost. */
  lemma FmtRoundTrip(ms: nat)
    ensures ParseClock(Fmt(ms)) == Some(ms / 1000)
  {
    FmtFields(ms);
  }

  /** Two durations show the same clock exactly when they fall in the same
      whole second. */
  lemma FmtSameSecond(a: nat, b: nat)
    ensures Fmt(a) == Fmt(b) <==> a / 1000 == b / 1000
  {
    FmtRoundTrip(a);
    FmtRoundTrip(b);
  }

  /** The clock is five characters below 100 minutes and grows beyond that:
      minutes are padded but never cut. */
  lemma FmtLength(ms: nat)
    ensures ms < 6000000 ==> |Fmt(ms)| == 5
    ensures ms >= 6000000 ==> |Fmt(ms)| > 5
  {
    var s := ms / 1000;
    var m := s / 60;
    assert Fmt(ms) == Clock(m, s % 60);
    assert |Fmt(ms)| == |PadStart2(Decimal(m))| + 3;
    assert ms == 1000 * s + ms % 1000 && s == 60 * m + s % 60;
    assert ms < 6000000 <==> m < 100;
  }

  /** Worked value: the clock starts at "00:00". */
  lemma FmtStart()
    ensures Fmt(0) == "00:00"
  {
    assert Decimal(0) == "0";
    assert Fmt(0) == Clock(0, 0);
  }

  /** Worked value: the last millisecond of the first second still shows
      "00:00". */
  lemma FmtBelowOneSecond()
    ensures Fmt(999) == "00:00"
  {
    assert 999 / 1000 == 0;
    assert Fmt(999) == Fmt(0);
    FmtStart();
  }

  /** Worked value: a minute and a second show "01:01". */
  lemma FmtMinuteAndSecond()
    ensures Fmt(61000) == "01:01"
  {
    assert 61000 / 1000 == 61 && 61 / 60 == 1 && 61 % 60 == 1;
    assert Fmt(61000) == Clock(1, 1);
    assert Decimal(1) == [DigitChar(1)] == "1";
    assert PadStart2("1") == "01";
  }

  // ----- the modal -----

  /** A callback the modal invokes on its parent. */
  datatype Callback = OnFinish(uri: string, durationMs: nat) | OnClose

  /** What the recorder reports on a status poll: whether the status
      carries a `durationMillis` key, and its value, which may be absent. */
  datatype RecordingStatus = RecordingStatus(hasDurationMillis: bool, durationMillis: Option<nat>)

  class RecordingModal {
    /** The active recording, represented by its uri; `None` for `null`. */
    var recording: Option<string>
    /** The duration last reported by the recorder, in milliseconds. */
    var elapsed: nat
    /** Whether the status-polling interval is live. */
    var ticking: bool

    constructor()
      ensures recording == None && elapsed == 0 && !ticking
    {
      recording := None;
      elapsed := 0;
      ticking := false;
    }

    /** `start`, once the recorder has started: the recording becomes
        active and the polling interval is armed. */
    method Start(uri: string)
      modifies this
      ensures recording == Some(uri) && ticking
      ensures elapsed == old(elapsed)
    {
      recording := Some(uri);
      ticking := true;
    }

    /** One run of the polling callback: while the interval is live, a
        status with a `durationMillis` key sets the elapsed time to it, or
        to 0 when its value is absent. */
    method Tick(st: RecordingStatus)
      modifies this
      ensures recording == old(recording) && ticking == old(ticking)
      ensures old(ticking) && st.hasDurationMillis ==> elapsed == st.durationMillis.GetOr(0)
      ensures !(old(ticking) && st.hasDurationMillis) ==> elapsed == old(elapsed)
    {
      if ticking && st.hasDurationMillis {
        elapsed := st.durationMillis.GetOr(0);
      }
    }

    /** `save`: with no active recording nothing happens. Otherwise the
        recording is stopped; on success the ticker is cleared and
        `onFinish` receives the uri and the elapsed time, on failure the
        error propagates and `onFinish` is not called. Either way the
        recording and the elapsed time are reset. */
    method Save(stopSucceeds: bool) returns (calls: seq<Callback>, threw: bool)
      modifies this
      ensures old(recording).None? ==>
        calls == [] && !threw && recording == None && elapsed == old(elapsed) && ticking == old(ticking)
      ensures old(recording).Some? ==> recording == None && elapsed == 0
      ensures old(recording).Some? && stopSucceeds ==>
        calls == [OnFinish(old(recording).value, old(elapsed))] && !threw && !ticking
      ensures old(recording).Some? && !stopSucceeds ==>
        calls == [] && threw && ticking == old(ticking)
      ensures forall c :: c in calls ==> c.OnFinish?
    {
      calls := [];
      threw := false;
      if recording.None? {
        return;
      }
      if stopSucceeds {
        var uri := recording.value;
        ticking := false;
        calls := [OnFinish(uri, elapsed)];
      } else {
        threw := true;
      }
      recording := None;
      elapsed := 0;
    }

    /** The `Exit` choice of the discard confirmation: a failing stop is
        ignored, the ticker is cleared, the recording and the elapsed time
        are reset and `onClose` is called. The `Cancel` choice does nothing. */
    method Discard(confirmed: bool) returns (calls: seq<Callback>)
      modifies this
      ensures !confirmed ==>
        calls == [] && recording == old(recording) && elapsed == old(elapsed) && ticking == old(ticking)
      ensures confirmed ==> calls == [OnClose] && recording == None && elapsed == 0 && !ticking
    {
      if !confirmed {
        return [];
      }
      ticking := false;
      recording := None;
      elapsed := 0;
      calls := [OnClose];
    }

    /** The cleanup of the visibility effect: the ticker is cleared. */
    method Hide()
      modifies this
      ensures !ticking && recording == old(recording) && elapsed == old(elapsed)
    {
      ticking := false;
    }

    /** The clock the modal shows. */
    function Display(): (r: string)
      reads this
      ensures ParseClock(r) == Some(elapsed / 1000)
    {
      FmtRoundTrip(elapsed);
      Fmt(elapsed)
    }
  }
}
