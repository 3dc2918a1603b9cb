/**
 * The logic of the player bar, src/components/Player.tsx: the clock text
 * `formatTime` prints under the progress bar, the rule that enables the
 * transport buttons, and the mount/unmount effect that creates and tears
 * down the store's audio element.
 */
module PlayerView {
  import opened Types
  import opened StoreSpec
  import PlayerStore

  // ---------------------------------------------------------------------
  // Decimal text, as `Number.prototype.toString` writes an integer
  // ---------------------------------------------------------------------

  predicate IsDigit(c: char)
  {
    '0' <= c <= '9'
  }

  predicate AllDigits(s: string)
  {
    forall k :: 0 <= k < |s| ==> IsDigit(s[k])
  }

  function DigitChar(d: nat): (c: char)
    requires d < 10
    ensures IsDigit(c) && c as int - '0' as int == d
  {
    ('0' as int + d) as char
  }

  /** The decimal digits of `n`, without leading zeros. */
  function Digits(n: nat): (r: string)
    ensures AllDigits(r)
    ensures |r| >= 1 && (r[0] == '0' ==> n == 0)
    ensures |r| == 1 <==> n < 10
  {
    if n < 10 then [DigitChar(n)] else Digits(n / 10) + [DigitChar(n % 10)]
  }

  /** The value of a string of decimal digits. */
  function ParseDigits(s: string): nat
    requires AllDigits(s)
  {
    if s == [] then 0
    else 10 * ParseDigits(s[..|s| - 1]) + (s[|s| - 1] as int - '0' as int)
  }

  /** Reading the digits back gives the number. */
  lemma {:induction false} DigitsRoundTrip(n: nat)
    ensures ParseDigits(Digits(n)) == n
  {
    if n >= 10 {
      var r := Digits(n);
      assert r[..|r| - 1] == Digits(n / 10);
      DigitsRoundTrip(n / 10);
    }
  }

  /** `n.toString()` for an integer `n`. */
  function IntToString(n: int): string
  {
    if n < 0 then "-" + Digits(-n) else Digits(n)
  }

  /** `s.padStart(2, '0')` */
  function PadStart2(s: string): (r: string)
    ensures |s| >= 2 ==> r == s
    ensures |s| < 2 ==> |r| == 2 && r[2 - |s|..] == s && forall k :: 0 <= k < 2 - |s| ==> r[k] == '0'
    decreases 2 - |s|
  {
    if |s| >= 2 then s else PadStart2("0" + s)
  }

  // ---------------------------------------------------------------------
  // JavaScript number arithmetic on reals (NaN and infinities left out)
  // ---------------------------------------------------------------------

  /** `Math.trunc(x)` */
  function Trunc(x: real): int
  {
    if x >= 0.0 then x.Floor else -((-x).Floor)
  }

  /** `x % m`: the remainder takes the sign of `x`. */
  function JsRemReal(x: real, m: real): real
    requires m != 0.0
  {
    x - m * (Trunc(x / m) as real)
  }

  /** src/components/Player.tsx:5-9 */
  function FormatTime(seconds: real): string
  {
    var mins := (seconds / 60.0).Floor;
    var secs := JsRemReal(seconds, 60.0).Floor;
    IntToString(mins) + ":" + PadStart2(IntToString(secs))
  }

  /** The two-character seconds field for `0 <= n < 60`. */
  function TwoDigits(n: nat): (r: string)
    requires n < 60
    ensures |r| == 2 && AllDigits(r)
    ensures ParseDigits(r) == n
    ensures r[0] == '0' <==> n < 10
  {
    DigitsRoundTrip(n);
    if n < 10 then "0" + Digits(n)
    else
      var d := Digits(n);
      assert d[..1] == Digits(n / 10);
      d
  }

  /** For a time that is not negative, the whole minutes and the seconds left over. */
  lemma FloorParts(t: real)
    requires t >= 0.0
    ensures (t / 60.0).Floor == t.Floor / 60
    ensures JsRemReal(t, 60.0).Floor == t.Floor % 60
  {
    var f := t.Floor;
    var q, r := f / 60, f % 60;
    assert f == 60 * q + r;
    assert (q as real) <= t / 60.0 < (q as real) + 1.0;
    assert Trunc(t / 60.0) == q;
    assert (r as real) <= JsRemReal(t, 60.0) < (r as real) + 1.0;
  }

  /**
   * A time that is not negative is shown as its whole minutes, a colon, and
   * the remaining whole seconds as exactly two digits.
   */
  lemma FormatTimeFields(t: real)
    requires t >= 0.0
    ensures t.Floor % 60 < 60
    ensures FormatTime(t) == Digits(t.Floor / 60) + ":" + TwoDigits(t.Floor % 60)
  {
    FloorParts(t);
    var secs := t.Floor % 60;
    assert IntToString(t.Floor / 60) == Digits(t.Floor / 60);
    assert IntToString(secs) == Digits(secs);
    if secs < 10 {
      assert PadStart2(IntToString(secs)) == "0" + Digits(secs);
    }
  }

  /** Reads an "M:SS" clock text back into whole seconds. */
  function ParseClock(s: string): (r: Option<int>)
    ensures r.Some? ==> |s| >= 4 && s[|s| - 3] == ':'
  {
    if |s| >= 4 && s[|s| - 3] == ':' then ClockFields(s[..|s| - 3], s[|s| - 2..]) else None
  }

  /** The minutes and the seconds field of a clock text, when both are digits. */
  function ClockFields(minutes: string, seconds: string): Option<int>
  {
    if AllDigits(minutes) && AllDigits(seconds)
    then Some(60 * ParseDigits(minutes) + ParseDigits(seconds))
    else None
  }

  /** A non-empty text, a colon and a two-character text split back into the two fields. */
  lemma ParseClockOf(d: string, two: string)
    requires |d| >= 1 && |two| == 2
    ensures ParseClock(d + ":" + two) == ClockFields(d, two)
  {
    var text := d + ":" + two;
    assert text[..|text| - 3] == d && text[|text| - 2..] == two;
    assert text[|text| - 3] == ':';
  }

  /** The clock text of `f` whole seconds, built from its minutes and its seconds field, reads back. */
  lemma ClockRoundTrip(f: nat)
    ensures ParseClock(Digits(f / 60) + ":" + TwoDigits(f % 60)) == Some(f)
  {
    DigitsRoundTrip(f / 60);
    ParseClockOf(Digits(f / 60), TwoDigits(f % 60));
  }

  /** The clock text of a time that is not negative reads back as its whole seconds. */
  lemma FormatTimeRoundTrip(t: real)
    requires t >= 0.0
    ensures ParseClock(FormatTime(t)) == Some(t.Floor)
  {
    FormatTimeFields(t);
    ClockRoundTrip(t.Floor);
  }

  /** Three clock texts the player shows: at the start, mid-track with a fraction, and at ten minutes. */
  lemma FormatTimeExamples()
    ensures FormatTime(0.0) == "0:00"
    ensures FormatTime(75.5) == "1:15"
    ensures FormatTime(600.0) == "10:00"
  {
    FormatsStart();
    FormatsFraction();
    FormatsTenMinutes();
  }

  lemma FormatsStart()
    ensures FormatTime(0.0) == "0:00"
  {
    var t := 0.0;
    assert t.Floor == 0 && t.Floor / 60 == 0 && t.Floor % 60 == 0;
    FormatTimeFields(t);
    assert TwoDigits(0) == "00" && Digits(0) == "0";
  }

  lemma FormatsFraction()
    ensures FormatTime(75.5) == "1:15"
  {
    var t := 75.5;
    assert t.Floor == 75 && t.Floor / 60 == 1 && t.Floor % 60 == 15;
    FormatTimeFields(t);
    assert TwoDigits(15) == "15" && Digits(1) == "1";
  }

  lemma FormatsTenMinutes()
    ensures FormatTime(600.0) == "10:00"
  {
    var t := 600.0;
    assert t.Floor == 600 && t.Floor / 60 == 10 && t.Floor % 60 == 0;
    FormatTimeFields(t);
    assert TwoDigits(0) == "00" && Digits(10) == "10";
  }

  // ---------------------------------------------------------------------
  // The transport buttons and the mount effect
  // ---------------------------------------------------------------------

  /** `disabled={!currentSong || isLoading || hasError}`, negated. */
  predicate ButtonsEnabled(s: Snapshot)
  {
    s.currentSong.Some? && !s.isLoading && !s.hasError
  }

  /**
   * With the element mounted, pressing the play button changes the store
   * exactly when the button is enabled: the button's rule is the store's
   * own guard, so a disabled button hides no action and an enabled one is
   * never a no-op.
   */
  lemma PlayButtonMatchesStore(s: Snapshot)
    requires s.media.Some?
    ensures ButtonsEnabled(s) <==> PlayPauseStep(s) != s
  {
    if ButtonsEnabled(s) {
      if s.isPlaying {
        assert PlayPauseStep(s).isPlaying != s.isPlaying;
      } else {
        assert PlayPauseStep(s).isLoading != s.isLoading;
      }
    }
  }

  /**
   * The effect of src/components/Player.tsx:27-32: `initializeAudio` when
   * the player mounts and `cleanup` when it unmounts. Whatever the store
   * was doing, afterwards it holds no element, nothing plays, nothing loads
   * and no error shows, and every element it retired is torn down. When the
   * stored volume is outside [0, 1] the mount throws, and the element it
   * created (`orphan`) is left listening, out of reach of the unmount.
   */
  method MountThenUnmount(store: PlayerStore.Store) returns (threw: bool, ghost orphan: PlayerStore.AudioElement?)
    requires store.Valid()
    modifies store, store.audioElement
    ensures store.Valid()
    ensures store.View() == CleanupStep(InitializeStep(old(store.View())))
    ensures store.audioElement == null && store.cleanupFunctions == [] && !store.isPlaying && !store.isLoading && !store.hasError
    ensures forall e :: e in store.retired ==> e.Retired()
    ensures threw <==> !InUnitRange(old(store.volume))
    ensures threw ==> orphan != null && fresh(orphan) && orphan.listening && orphan !in store.retired
  {
    threw, orphan := store.InitializeAudio();
    store.Cleanup();
  }
}
