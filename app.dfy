/** The page component: the language taken from the URL hash, the hash-change rule, the
    microphone start-up, and the per-frame blow check that the page runs through
    `requestAnimationFrame` (a fixed first-bins average with a short debounce). */
module App {
  import opened Wrappers
  import opened Text
  import opened Spectrum
  import opened Session
  import Controls

  // ----- Language from the URL hash -----

  /** `window.location.hash.replace('#/', '')`: only the first "#/" is removed. */
  function HashPayload(hash: string): (p: string)
    ensures (forall j :: !OccursAt(hash, "#/", j)) ==> p == hash
    ensures forall i :: FirstOccurrence(hash, "#/", i) ==> p == hash[..i] + hash[i + 2..]
  {
    ReplaceFirst(hash, "#/", "")
  }

  /** The language the page starts in: the one the hash names, or English. */
  function InitialLanguage(hash: string): (l: Language)
    ensures Code(l) == HashPayload(hash) || (l == En && forall k: Language :: Code(k) != HashPayload(hash))
  {
    ParseLanguage(HashPayload(hash)).GetOr(En)
  }

  /** The state `useState` starts from. */
  function InitialState(hash: string): (s: AppState)
    ensures s.lang == InitialLanguage(hash)
    ensures s.selectedCakeId == "elegant-strawberry" && s.candleType == Classic
    ensures s.candleCount == 1 && s.digits == "23"
    ensures !s.isExtinguished && !s.isBlowing && s.customCakes == map[]
    ensures s.userName == "" && s.customMessage == ""
  {
    AppState(
      lang := InitialLanguage(hash),
      selectedCakeId := "elegant-strawberry",
      candleType := Classic,
      candleCount := 1,
      digits := "23",
      isExtinguished := false,
      isBlowing := false,
      customCakes := map[],
      userName := "",
      customMessage := "")
  }

  function LangPatch(l: Language): Patch {
    NoChange.(lang := Some(l))
  }

  /** `handleHashChange`: a recognised language replaces `lang`; anything else is ignored. */
  function HashChange(st: AppState, hash: string): (r: AppState)
    ensures (forall l: Language :: Code(l) != HashPayload(hash)) ==> r == st
    ensures forall l: Language :: Code(l) == HashPayload(hash) ==> r == st.(lang := l)
  {
    match ParseLanguage(HashPayload(hash))
    case None => st
    case Some(l) => Merge(st, LangPatch(l))
  }

  /** `changeLanguage` writes "#/" + code into the hash; reading that hash back, at start-up
      or in the hash-change handler, gives the same language and changes nothing more. */
  lemma ChangeLanguageRoundTrip(st: AppState, l: Language)
    ensures InitialLanguage("#/" + Code(l)) == l
    ensures HashChange(Merge(st, LangPatch(l)), "#/" + Code(l)) == Merge(st, LangPatch(l))
  {
    ReplaceFirstOfPrefixed("#/", Code(l));
    ParseLanguageOfCode(l);
  }

  // ----- The per-frame blow check -----

  const BlowThreshold: real := 0.35
  const SampledBins: nat := 20
  /** The frame whose count exceeds this extinguishes the candles. */
  const ExtinguishAfter: int := 6

  /** The mean of the first 20 bins, scaled to [0, 1]. */
  function FirstBinsAverage(s: Snapshot): (a: real)
    requires |s| >= SampledBins
    ensures 0.0 <= a <= 1.0
  {
    Sum(s[..SampledBins]) as real / 20.0 / 255.0
  }

  predicate Loud(s: Snapshot)
    requires |s| >= SampledBins
  {
    FirstBinsAverage(s) > BlowThreshold
  }

  /** Every snapshot has the size the analyser produces. */
  predicate Sized(frames: seq<Snapshot>) {
    forall k :: 0 <= k < |frames| ==> |frames[k]| == FrequencyBinCount
  }

  /** Every snapshot is of that size and loud in its first bins. */
  predicate AllLoud(frames: seq<Snapshot>) {
    Sized(frames) && forall k :: 0 <= k < |frames| ==> Loud(frames[k])
  }

  /** After one call of `checkBlow`: the counter `blowDurationRef.current`, the page state, and
      whether the call scheduled another frame. */
  datatype Frame = Frame(blowDuration: int, state: AppState, scheduled: bool)

  /** One call of `checkBlow` on snapshot `s`, counter `d` and state `st`; `listening` is
      whether an analyser is installed. */
  function FrameStep(s: Snapshot, d: int, st: AppState, listening: bool): (f: Frame)
    requires |s| == FrequencyBinCount
    ensures !listening || st.isExtinguished ==> f == Frame(d, st, false)
    ensures f.state == st.(isBlowing := f.state.isBlowing, isExtinguished := f.state.isExtinguished)
    ensures f.scheduled ==> !f.state.isExtinguished
    ensures listening && !st.isExtinguished ==>
              && f.blowDuration == (if Loud(s) then d + 1 else 0)
              && (f.state.isExtinguished <==> Loud(s) && d + 1 > ExtinguishAfter)
              && (f.state.isBlowing <==> Loud(s) && !f.state.isExtinguished)
              && (f.scheduled <==> !f.state.isExtinguished)
  {
    if !listening || st.isExtinguished then Frame(d, st, false)
    else if Loud(s) then
      var st1 := Merge(st, NoChange.(isBlowing := Some(true)));
      if d + 1 > ExtinguishAfter then
        Frame(d + 1, Merge(st1, NoChange.(isExtinguished := Some(true), isBlowing := Some(false))), false)
      else
        Frame(d + 1, st1, true)
    else
      Frame(0, Merge(st, NoChange.(isBlowing := Some(false))), true)
  }

  /** Bins from index 20 on never influence a step. */
  lemma OnlyFirstBinsMatter(s: Snapshot, t: Snapshot, d: int, st: AppState, listening: bool)
    requires |s| == |t| == FrequencyBinCount
    requires s[..SampledBins] == t[..SampledBins]
    ensures FrameStep(s, d, st, listening) == FrameStep(t, d, st, listening)
  {
  }

  /** The frames a running loop processes: it stops at the first call that does not reschedule. */
  function RunFrames(frames: seq<Snapshot>, f: Frame): (r: Frame)
    requires Sized(frames)
    ensures !f.scheduled ==> r == f
    ensures r.state == f.state.(isBlowing := r.state.isBlowing, isExtinguished := r.state.isExtinguished)
    ensures f.state.isExtinguished ==> r.state == f.state && r.blowDuration == f.blowDuration
    ensures |frames| > 0 && f.scheduled ==> !r.scheduled || !r.state.isExtinguished
  {
    if frames == [] || !f.scheduled then f
    else RunFrames(frames[1..], FrameStep(frames[0], f.blowDuration, f.state, true))
  }

  /** A streak of loud frames from counter `d` (ending no later than the 7th) counts up one per
      frame; the candles stay lit and blowing until the count reaches 7, when the state
      becomes extinguished and not blowing and the loop stops. */
  lemma {:induction false} LoudStreak(frames: seq<Snapshot>, d: int, st: AppState)
    requires AllLoud(frames)
    requires 0 <= d && 1 <= |frames| && d + |frames| <= ExtinguishAfter + 1
    requires !st.isExtinguished
    ensures var r := RunFrames(frames, Frame(d, st, true));
      && r.blowDuration == d + |frames|
      && (r.scheduled <==> d + |frames| <= ExtinguishAfter)
      && r.state == st.(isBlowing := d + |frames| <= ExtinguishAfter, isExtinguished := d + |frames| > ExtinguishAfter)
  {
    var f1 := FrameStep(frames[0], d, st, true);
    if |frames| > 1 {
      assert f1 == Frame(d + 1, st.(isBlowing := true), true);
      LoudStreak(frames[1..], d + 1, st.(isBlowing := true));
      assert RunFrames(frames, Frame(d, st, true)) == RunFrames(frames[1..], f1);
    } else {
      assert RunFrames(frames, Frame(d, st, true)) == RunFrames(frames[1..], f1);
    }
  }

  /** From a reset counter, six loud frames keep the candles lit; the 7th puts them out and
      stops the loop. */
  lemma SeventhLoudFrameExtinguishes(frames: seq<Snapshot>, st: AppState)
    requires |frames| == 7 && AllLoud(frames)
    requires !st.isExtinguished
    ensures forall n :: 1 <= n <= 6 ==> !RunFrames(frames[..n], Frame(0, st, true)).state.isExtinguished
    ensures RunFrames(frames, Frame(0, st, true)) ==
              Frame(7, st.(isBlowing := false, isExtinguished := true), false)
  {
    forall n | 1 <= n <= 6
      ensures !RunFrames(frames[..n], Frame(0, st, true)).state.isExtinguished
    {
      LoudStreak(frames[..n], 0, st);
    }
    LoudStreak(frames, 0, st);
  }

  /** A quiet frame resets the counter and the blowing flag and keeps the loop going. */
  lemma QuietFrameResets(s: Snapshot, d: int, st: AppState)
    requires |s| == FrequencyBinCount && !Loud(s) && !st.isExtinguished
    ensures FrameStep(s, d, st, true) == Frame(0, st.(isBlowing := false), true)
  {
  }

  /** Once extinguished, no step changes anything or schedules another. */
  lemma ExtinguishedIsFinal(frames: seq<Snapshot>, d: int, st: AppState, scheduled: bool)
    requires Sized(frames)
    requires st.isExtinguished
    ensures RunFrames(frames, Frame(d, st, scheduled)).state == st
    ensures RunFrames(frames, Frame(d, st, scheduled)).blowDuration == d
  {
  }

  // ----- Relighting -----

  /** Relighting as the page does it: the relight payload is merged, and the counter
      `blowDurationRef.current` keeps the value it had when the candles went out. */
  function RelightAsWritten(f: Frame): (r: Frame)
    ensures r.state == f.state.(isExtinguished := false)
    ensures r.blowDuration == f.blowDuration && r.scheduled == f.scheduled
  {
    Frame(f.blowDuration, Merge(f.state, Controls.RelightPatch), f.scheduled)
  }

  /** Relighting that also restarts the counter at 0. The counter counts consecutive loud
      frames of one listening session, and relighting starts a new session. */
  function RelightCorrected(f: Frame): (r: Frame)
    ensures r.state == f.state.(isExtinguished := false)
    ensures r.blowDuration == 0 && r.scheduled == f.scheduled
  {
    Frame(0, Merge(f.state, Controls.RelightPatch), f.scheduled)
  }

  /** As written, after the candles go out and are relit, the restarted loop puts them out
      again on its first loud frame: the counter is still 7. */
  lemma RelightAsWrittenRefiresAtOnce(frames: seq<Snapshot>, next: Snapshot, st: AppState)
    requires |frames| == 7 && AllLoud(frames)
    requires |next| == FrequencyBinCount && Loud(next) && !st.isExtinguished
    ensures var out := RunFrames(frames, Frame(0, st, true));
            var relit := RelightAsWritten(out);
      && out.state.isExtinguished
      && !relit.state.isExtinguished && relit.blowDuration == 7
      && FrameStep(next, relit.blowDuration, relit.state, true).state.isExtinguished
  {
    SeventhLoudFrameExtinguishes(frames, st);
  }

  /** As written, the defect shows only when the restarted loop's first frame is loud: a
      quiet first frame resets the stale counter, and six loud frames after it stay lit. */
  lemma RelightAsWrittenQuietStart(frames: seq<Snapshot>, quiet: Snapshot, more: seq<Snapshot>, st: AppState)
    requires |frames| == 7 && AllLoud(frames)
    requires |quiet| == FrequencyBinCount && !Loud(quiet)
    requires |more| == 6 && AllLoud(more)
    requires !st.isExtinguished
    ensures var relit := RelightAsWritten(RunFrames(frames, Frame(0, st, true)));
            var first := FrameStep(quiet, relit.blowDuration, relit.state, true);
      && relit.blowDuration == 7
      && first.blowDuration == 0 && first.scheduled && !first.state.isExtinguished
      && !RunFrames(more, first).state.isExtinguished
  {
    SeventhLoudFrameExtinguishes(frames, st);
    var relit := RelightAsWritten(RunFrames(frames, Frame(0, st, true)));
    var first := FrameStep(quiet, relit.blowDuration, relit.state, true);
    LoudStreak(more, 0, first.state);
  }

  /** With the counter reset on relight, the restarted loop again needs seven loud frames. */
  lemma RelightCorrectedRestartsDebounce(frames: seq<Snapshot>, more: seq<Snapshot>, st: AppState)
    requires |frames| == 7 && AllLoud(frames)
    requires |more| == 7 && AllLoud(more)
    requires !st.isExtinguished
    ensures var out := RunFrames(frames, Frame(0, st, true));
            var relit := RelightCorrected(out);
      && out.state.isExtinguished
      && !relit.state.isExtinguished && relit.blowDuration == 0
      && (forall n :: 1 <= n <= 6 ==>
            !RunFrames(more[..n], Frame(0, relit.state, true)).state.isExtinguished)
      && RunFrames(more, Frame(0, relit.state, true)).state.isExtinguished
  {
    SeventhLoudFrameExtinguishes(frames, st);
    var out := RunFrames(frames, Frame(0, st, true));
    SeventhLoudFrameExtinguishes(more, RelightCorrected(out).state);
  }

  // ----- The page object -----

  /** The page's mutable parts: its React state, the window's hash, the counter ref, and
      whether an analyser is installed (`analyserRef.current`). */
  class Page {
    var state: AppState
    var hash: string
    var blowDuration: int
    var listening: bool

    constructor (initialHash: string)
      ensures state == InitialState(initialHash) && hash == initialHash
      ensures blowDuration == 0 && !listening
    {
      state := InitialState(initialHash);
      hash := initialHash;
      blowDuration := 0;
      listening := false;
    }

    /** `updateState(updates)`. */
    method UpdateState(u: Patch)
      modifies this
      ensures state == Merge(old(state), u)
      ensures hash == old(hash) && blowDuration == old(blowDuration) && listening == old(listening)
    {
      state := Merge(state, u);
    }

    /** The `hashchange` listener. */
    method HandleHashChange()
      modifies this
      ensures state == HashChange(old(state), hash)
      ensures hash == old(hash) && blowDuration == old(blowDuration) && listening == old(listening)
    {
      var payload := HashPayload(hash);
      match ParseLanguage(payload)
      case Some(l) => UpdateState(LangPatch(l));
      case None =>
    }

    /** `changeLanguage(l)`. */
    method ChangeLanguage(l: Language)
      modifies this
      ensures hash == "#/" + Code(l) && state == Merge(old(state), LangPatch(l))
      ensures blowDuration == old(blowDuration) && listening == old(listening)
    {
      hash := "#/" + Code(l);
      UpdateState(LangPatch(l));
    }

    /** `initMic`, with whether the microphone was granted passed in: nothing starts when the
        candles are out or access is refused. */
    method InitMic(granted: bool) returns (started: bool)
      modifies this
      ensures started <==> !old(state).isExtinguished && granted
      ensures listening == (old(listening) || started)
      ensures state == old(state) && hash == old(hash) && blowDuration == old(blowDuration)
    {
      if state.isExtinguished {
        return false;
      }
      if !granted {
        return false;
      }
      listening := true;
      started := true;
    }

    /** `checkBlow` on snapshot `s`; `scheduled` is whether it requested another frame. */
    method CheckBlow(s: Snapshot) returns (scheduled: bool)
      requires |s| == FrequencyBinCount
      modifies this
      ensures Frame(blowDuration, state, scheduled) == FrameStep(s, old(blowDuration), old(state), old(listening))
      ensures hash == old(hash) && listening == old(listening)
    {
      if !listening || state.isExtinguished {
        return false;
      }
      var sum: int := 0;
      for i := 0 to SampledBins
        invariant sum == Sum(s[..i])
        invariant unchanged(this)
      {
        SumPrefixStep(s, i);
        sum := sum + s[i];
      }
      var average := sum as real / 20.0 / 255.0;
      if average > BlowThreshold {
        blowDuration := blowDuration + 1;
        UpdateState(NoChange.(isBlowing := Some(true)));
        if blowDuration > ExtinguishAfter {
          UpdateState(NoChange.(isExtinguished := Some(true), isBlowing := Some(false)));
          return false;
        }
      } else {
        blowDuration := 0;
        UpdateState(NoChange.(isBlowing := Some(false)));
      }
      scheduled := true;
    }

    /** The relight button with the counter reset that the as-written page omits. */
    method Relight()
      modifies this
      ensures Frame(blowDuration, state, listening) == RelightCorrected(Frame(old(blowDuration), old(state), old(listening)))
      ensures hash == old(hash) && listening == old(listening)
    {
      UpdateState(Controls.RelightPatch);
      blowDuration := 0;
    }
  }
}
