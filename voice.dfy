/**
 * The speech notification service: a single-flight FIFO of spoken messages
 * on top of the platform's speech engine, with asynchronous voice
 * discovery, a load-timeout fallback and a voice-selection policy.
 *
 * The platform is reduced to what the service can observe: whether a
 * window and a speech engine exist (constructor parameters), the voice
 * list the engine reports (passed to the load handlers), and the calls the
 * service makes on the engine (`cancel()` and `speak(utterance)`), which
 * are recorded in `calls` instead of being performed.
 */
module Voice {
  import opened Types
  import opened Text

  const DefaultRate: real := 1.1
  const DefaultPitch: real := 1.0
  const DefaultVolume: real := 1.0

  /** A platform voice, by the two attributes the selection policy reads. */
  datatype VoiceInfo = VoiceInfo(name: string, lang: string)

  /** Stored speech preferences; `None` is an absent field. */
  datatype Preferences = Preferences(
    rate: Option<real>, pitch: Option<real>, volume: Option<real>,
    voiceName: Option<string>, voiceLang: Option<string>)

  /** Options of one `speak` call; `speak` reads only these four. */
  datatype VoiceOptions = VoiceOptions(immediate: bool, rate: Option<real>, pitch: Option<real>, volume: Option<real>)

  function NoOptions(): VoiceOptions
  {
    VoiceOptions(false, None, None, None)
  }

  function InitialPreferences(): Preferences
  {
    Preferences(Some(DefaultRate), Some(DefaultPitch), Some(DefaultVolume), None, None)
  }

  /** An utterance handed to the speech engine. */
  datatype Utterance = Utterance(text: string, rate: real, pitch: real, volume: real, voice: Option<VoiceInfo>)

  /** A call the service makes on the platform speech engine. */
  datatype SpeechCall = CancelAll | SpeakUtterance(utterance: Utterance)

  // ----- Voice selection -----

  /** The three tests the selection policy applies to a voice. */
  datatype Criterion = NameIs(name: string) | LangStartsWith(prefix: string) | NameIncludes(part: string)

  predicate Matches(v: VoiceInfo, c: Criterion)
  {
    match c
    case NameIs(n) => v.name == n
    case LangStartsWith(p) => StartsWith(v.lang, p)
    case NameIncludes(part) => Includes(v.name, part)
  }

  ghost predicate AnyMatch(vs: seq<VoiceInfo>, c: Criterion)
  {
    exists i :: 0 <= i < |vs| && Matches(vs[i], c)
  }

  /** `v` is the first voice of `vs` that passes `c`. */
  ghost predicate FirstMatch(vs: seq<VoiceInfo>, c: Criterion, v: VoiceInfo)
  {
    exists i :: 0 <= i < |vs| && vs[i] == v && Matches(vs[i], c) && forall j :: 0 <= j < i ==> !Matches(vs[j], c)
  }

  /** `Array.prototype.find`: the first voice passing `c`, if any. */
  function Find(vs: seq<VoiceInfo>, c: Criterion): (r: Option<VoiceInfo>)
    ensures r.None? <==> !AnyMatch(vs, c)
    ensures r.Some? ==> FirstMatch(vs, c, r.value)
  {
    if vs == [] then None
    else if Matches(vs[0], c) then
      assert FirstMatch(vs, c, vs[0]) by { assert vs[0] == vs[0]; }
      Some(vs[0])
    else
      var r := Find(vs[1..], c);
      if r.Some? then
        assert FirstMatch(vs, c, r.value) by {
          var i :| 0 <= i < |vs[1..]| && vs[1..][i] == r.value && Matches(vs[1..][i], c)
                   && forall j :: 0 <= j < i ==> !Matches(vs[1..][j], c);
          assert vs[i + 1] == r.value && forall j :: 0 <= j < i + 1 ==> !Matches(vs[j], c) by {
            forall j | 0 <= j < i + 1 ensures !Matches(vs[j], c) {
              if j > 0 { assert vs[j] == vs[1..][j - 1]; }
            }
          }
        }
        r
      else
        assert !AnyMatch(vs, c) by {
          forall i | 0 <= i < |vs| ensures !Matches(vs[i], c) {
            if i > 0 { assert vs[i] == vs[1..][i - 1]; }
          }
        }
        None
  }

  /** A preference field counts only when present and non-empty (a JavaScript truthiness test). */
  predicate Given(s: Option<string>)
  {
    s.Some? && s.value != ""
  }

  const GoogleUsEnglish: string := "Google US English"

  /**
   * `getBestVoice`: nothing when there are no voices; otherwise the first
   * voice whose name is the preferred name, else the first whose language
   * starts with the preferred language, else the first whose name contains
   * "Google US English", else the first English voice, else the first voice.
   */
  function GetBestVoice(vs: seq<VoiceInfo>, prefs: Preferences): (r: Option<VoiceInfo>)
    ensures r.None? <==> vs == []
    ensures r.Some? ==> r.value in vs
    ensures Given(prefs.voiceName) && AnyMatch(vs, NameIs(prefs.voiceName.value)) ==>
              r.Some? && FirstMatch(vs, NameIs(prefs.voiceName.value), r.value)
    ensures !(Given(prefs.voiceName) && AnyMatch(vs, NameIs(prefs.voiceName.value)))
            && Given(prefs.voiceLang) && AnyMatch(vs, LangStartsWith(prefs.voiceLang.value)) ==>
              r.Some? && FirstMatch(vs, LangStartsWith(prefs.voiceLang.value), r.value)
    ensures !(Given(prefs.voiceName) && AnyMatch(vs, NameIs(prefs.voiceName.value)))
            && !(Given(prefs.voiceLang) && AnyMatch(vs, LangStartsWith(prefs.voiceLang.value)))
            && AnyMatch(vs, NameIncludes(GoogleUsEnglish)) ==>
              r.Some? && FirstMatch(vs, NameIncludes(GoogleUsEnglish), r.value)
    ensures !(Given(prefs.voiceName) && AnyMatch(vs, NameIs(prefs.voiceName.value)))
            && !(Given(prefs.voiceLang) && AnyMatch(vs, LangStartsWith(prefs.voiceLang.value)))
            && !AnyMatch(vs, NameIncludes(GoogleUsEnglish)) && AnyMatch(vs, LangStartsWith("en")) ==>
              r.Some? && FirstMatch(vs, LangStartsWith("en"), r.value)
    ensures vs != []
            && !(Given(prefs.voiceName) && AnyMatch(vs, NameIs(prefs.voiceName.value)))
            && !(Given(prefs.voiceLang) && AnyMatch(vs, LangStartsWith(prefs.voiceLang.value)))
            && !AnyMatch(vs, NameIncludes(GoogleUsEnglish)) && !AnyMatch(vs, LangStartsWith("en")) ==>
              r == Some(vs[0])
  {
    if vs == [] then None
    else
      var byName := if Given(prefs.voiceName) then Find(vs, NameIs(prefs.voiceName.value)) else None;
      if byName.Some? then byName
      else
        var byLang := if Given(prefs.voiceLang) then Find(vs, LangStartsWith(prefs.voiceLang.value)) else None;
        if byLang.Some? then byLang
        else
          var google := Find(vs, NameIncludes(GoogleUsEnglish));
          if google.Some? then google
          else
            var english := Find(vs, LangStartsWith("en"));
            if english.Some? then english
            else Some(vs[0])
  }

  // ----- Messages -----

  /** The two kinds of lookahead announcement. */
  datatype CountdownKind = WorkAhead | RestAhead

  /** The text `speakAtCountdown` speaks. */
  function CountdownText(kind: CountdownKind, seconds: int): string
  {
    (if kind == WorkAhead then "Work" else "Rest") + " in " + IntToString(seconds) + " seconds"
  }

  /** The announcement names its phase and exactly the given number of seconds. */
  lemma CountdownTextReadsBack(kind: CountdownKind, seconds: nat)
    ensures var t := CountdownText(kind, seconds);
            var word := if kind == WorkAhead then "Work" else "Rest";
            var digits := t[|word| + 4..|t| - 8];
            t[..|word| + 4] == word + " in " && t[|t| - 8..] == " seconds"
            && AllDigits(digits) && DigitsValue(digits) == seconds
  {
    var word := if kind == WorkAhead then "Work" else "Rest";
    var t := CountdownText(kind, seconds);
    assert t == word + " in " + NatToString(seconds) + " seconds";
    assert t[|word| + 4..|t| - 8] == NatToString(seconds);
    NatToStringValue(seconds);
  }

  // ----- The queue drain -----

  /**
   * What `processPendingQueue` does to a queue when nothing is speaking:
   * messages are taken from the front, empty ones are dropped, and the
   * first non-empty one is started; the rest stays queued.
   */
  function Drain(q: seq<string>): (d: (Option<string>, seq<string>))
    ensures |d.1| <= |q|
  {
    if q == [] then (None, [])
    else if q[0] != "" then (Some(q[0]), q[1..])
    else Drain(q[1..])
  }

  /**
   * The drain is FIFO: it starts the oldest non-empty message, drops
   * exactly the empty messages before it and keeps everything after it in
   * order; if there is none, the queue ends empty with nothing started.
   */
  lemma {:induction false} DrainIsFifo(q: seq<string>)
    ensures Drain(q).0.None? ==> Drain(q).1 == [] && forall i :: 0 <= i < |q| ==> q[i] == ""
    ensures Drain(q).0.Some? ==>
              exists k :: 0 <= k < |q| && q[k] == Drain(q).0.value && q[k] != ""
                       && (forall i :: 0 <= i < k ==> q[i] == "") && Drain(q).1 == q[k + 1..]
  {
    if q != [] && q[0] == "" {
      DrainIsFifo(q[1..]);
      if Drain(q[1..]).0.Some? {
        var k :| 0 <= k < |q[1..]| && q[1..][k] == Drain(q[1..]).0.value && q[1..][k] != ""
                 && (forall i :: 0 <= i < k ==> q[1..][i] == "") && Drain(q[1..]).1 == q[1..][k + 1..];
        assert q[k + 1] == Drain(q).0.value && q[k + 1 + 1..] == q[1..][k + 1..];
        forall i | 0 <= i < k + 1 ensures q[i] == "" {
          if i > 0 { assert q[i] == q[1..][i - 1]; }
        }
      } else {
        forall i | 0 <= i < |q| ensures q[i] == "" {
          if i > 0 { assert q[i] == q[1..][i - 1]; }
        }
      }
    } else if q != [] {
      assert q[0] == Drain(q).0.value;
    }
  }

  /** The utterance the service builds for `text` from its preferences and voices. */
  function UtteranceFor(text: string, prefs: Preferences, vs: seq<VoiceInfo>): Utterance
  {
    Utterance(text,
      if prefs.rate.Some? then prefs.rate.value else DefaultRate,
      if prefs.pitch.Some? then prefs.pitch.value else DefaultPitch,
      if prefs.volume.Some? then prefs.volume.value else DefaultVolume,
      GetBestVoice(vs, prefs))
  }

  /** The engine calls that starting `text` makes: cancel whatever plays, then speak. */
  function StartCalls(text: string, prefs: Preferences, vs: seq<VoiceInfo>): seq<SpeechCall>
  {
    [CancelAll, SpeakUtterance(UtteranceFor(text, prefs, vs))]
  }

  // ----- The service -----

  class VoiceNotificationService {
    /** `typeof window !== 'undefined'`. */
    const hasWindow: bool
    /** `'speechSynthesis' in window`. */
    const hasSpeech: bool

    var voices: seq<VoiceInfo>
    var voicesLoaded: bool
    var isSpeaking: bool
    var pendingQueue: seq<string>
    /** The 5-second fallback timer is pending. */
    var loadTimerArmed: bool
    /** The voices-changed handler is registered. */
    var voicesChangedHandler: bool
    var preferences: Preferences
    /** Every call made on the platform speech engine, oldest first. */
    var calls: seq<SpeechCall>

    ghost predicate Valid()
      reads this
    {
      // voices are marked loaded only in a window with a speech engine
      && (voicesLoaded ==> hasWindow && hasSpeech)
      // something speaks only once voices are loaded
      && (isSpeaking ==> voicesLoaded)
      // without a window or a speech engine nothing is ever queued
      && (!(hasWindow && hasSpeech) ==> pendingQueue == [] && !loadTimerArmed && !voicesChangedHandler)
      // the two load listeners are registered and cleared together, and only while voices are not loaded
      && loadTimerArmed == voicesChangedHandler
      && (loadTimerArmed ==> !voicesLoaded)
    }

    /** `initializeVoices`, run by the constructor, against the voice list the platform reports now. */
    constructor (hasWindow: bool, hasSpeech: bool, available: seq<VoiceInfo>)
      ensures Valid()
      ensures this.hasWindow == hasWindow && this.hasSpeech == hasSpeech
      ensures pendingQueue == [] && !isSpeaking && calls == [] && preferences == InitialPreferences()
      ensures voicesLoaded <==> hasWindow && hasSpeech && |available| > 0
      ensures voices == if voicesLoaded then available else []
      ensures loadTimerArmed <==> hasWindow && hasSpeech && |available| == 0
    {
      this.hasWindow := hasWindow;
      this.hasSpeech := hasSpeech;
      voices := [];
      voicesLoaded := false;
      isSpeaking := false;
      pendingQueue := [];
      loadTimerArmed := false;
      voicesChangedHandler := false;
      preferences := InitialPreferences();
      calls := [];
      new;
      if hasWindow && hasSpeech {
        if |available| > 0 {
          voices := available;
          voicesLoaded := true;
        } else {
          voicesChangedHandler := true;
          loadTimerArmed := true;
        }
      }
    }

    /** `clearLoadListeners`: cancels the fallback timer and unregisters the handler. */
    method ClearLoadListeners()
      modifies this
      ensures !loadTimerArmed && !voicesChangedHandler
      ensures voices == old(voices) && voicesLoaded == old(voicesLoaded) && isSpeaking == old(isSpeaking)
      ensures pendingQueue == old(pendingQueue) && preferences == old(preferences) && calls == old(calls)
    {
      loadTimerArmed := false;
      voicesChangedHandler := false;
    }

    /**
     * `speakInternal`: outside a window nothing happens; before voices are
     * loaded or while something speaks the message joins the tail of the
     * queue; otherwise exactly this message starts.
     */
    method SpeakInternal(text: string)
      requires Valid()
      // its callers, `speak` and the drain, run only where a speech engine exists
      requires hasSpeech
      modifies this
      ensures Valid()
      ensures voices == old(voices) && voicesLoaded == old(voicesLoaded) && preferences == old(preferences)
      ensures loadTimerArmed == old(loadTimerArmed) && voicesChangedHandler == old(voicesChangedHandler)
      ensures !hasWindow ==> isSpeaking == old(isSpeaking) && pendingQueue == old(pendingQueue) && calls == old(calls)
      ensures hasWindow && (!voicesLoaded || old(isSpeaking)) ==>
                pendingQueue == old(pendingQueue) + [text] && isSpeaking == old(isSpeaking) && calls == old(calls)
      ensures hasWindow && voicesLoaded && !old(isSpeaking) ==>
                pendingQueue == old(pendingQueue) && isSpeaking
                && calls == old(calls) + StartCalls(text, preferences, voices)
    {
      if !hasWindow {
        return;
      }
      if !voicesLoaded || isSpeaking {
        pendingQueue := pendingQueue + [text];
        return;
      }
      isSpeaking := true;
      calls := calls + [CancelAll];
      var u := Utterance(text,
        if preferences.rate.Some? then preferences.rate.value else DefaultRate,
        if preferences.pitch.Some? then preferences.pitch.value else DefaultPitch,
        if preferences.volume.Some? then preferences.volume.value else DefaultVolume,
        GetBestVoice(voices, preferences));
      calls := calls + [SpeakUtterance(u)];
    }

    /**
     * `processPendingQueue`: while messages wait and nothing speaks, take the
     * oldest; drop it when empty, start it otherwise. The loop stops as soon
     * as one message has started, so at most one is ever started per drain.
     */
    method ProcessPendingQueue()
      requires Valid() && voicesLoaded
      modifies this
      ensures Valid()
      ensures voices == old(voices) && voicesLoaded == old(voicesLoaded) && preferences == old(preferences)
      ensures loadTimerArmed == old(loadTimerArmed) && voicesChangedHandler == old(voicesChangedHandler)
      ensures old(isSpeaking) ==> pendingQueue == old(pendingQueue) && isSpeaking && calls == old(calls)
      ensures !old(isSpeaking) ==>
                var d := Drain(old(pendingQueue));
                pendingQueue == d.1 && isSpeaking == d.0.Some?
                && calls == old(calls) + (if d.0.Some? then StartCalls(d.0.value, preferences, voices) else [])
    {
      ghost var q0 := pendingQueue;
      ghost var c0 := calls;
      while |pendingQueue| > 0 && !isSpeaking
        invariant Valid() && voicesLoaded && hasWindow
        invariant voices == old(voices) && preferences == old(preferences)
        invariant loadTimerArmed == old(loadTimerArmed) && voicesChangedHandler == old(voicesChangedHandler)
        invariant old(isSpeaking) ==> pendingQueue == q0 && isSpeaking && calls == c0
        invariant !old(isSpeaking) && !isSpeaking ==> Drain(q0) == Drain(pendingQueue) && calls == c0
        invariant !old(isSpeaking) && isSpeaking ==>
                    Drain(q0).0.Some? && Drain(q0).1 == pendingQueue
                    && calls == c0 + StartCalls(Drain(q0).0.value, preferences, voices)
        decreases |pendingQueue|
      {
        var message := pendingQueue[0];
        pendingQueue := pendingQueue[1..];
        if message != "" {
          SpeakInternal(message);
        }
      }
    }

    /**
     * The utterance's `onend` and `onerror` callbacks, which do the same:
     * clear the speaking flag and start the oldest waiting message.
     */
    method OnUtteranceDone()
      requires Valid() && voicesLoaded
      modifies this
      ensures Valid()
      ensures voices == old(voices) && voicesLoaded == old(voicesLoaded) && preferences == old(preferences)
      ensures loadTimerArmed == old(loadTimerArmed) && voicesChangedHandler == old(voicesChangedHandler)
      ensures var d := Drain(old(pendingQueue));
              pendingQueue == d.1 && isSpeaking == d.0.Some?
              && calls == old(calls) + (if d.0.Some? then StartCalls(d.0.value, preferences, voices) else [])
    {
      isSpeaking := false;
      ProcessPendingQueue();
    }

    /**
     * `handleVoicesChanged`, against the list the platform reports: the list
     * is stored; only a non-empty list marks voices ready, clears both load
     * listeners and drains the queue.
     */
    method OnVoicesChanged(available: seq<VoiceInfo>)
      requires Valid() && voicesChangedHandler
      modifies this
      ensures Valid()
      ensures voices == available && preferences == old(preferences)
      ensures |available| == 0 ==>
                !voicesLoaded && loadTimerArmed && voicesChangedHandler
                && pendingQueue == old(pendingQueue) && isSpeaking == old(isSpeaking) && calls == old(calls)
      ensures |available| > 0 ==>
                voicesLoaded && !loadTimerArmed && !voicesChangedHandler
                && var d := Drain(old(pendingQueue));
                   pendingQueue == d.1 && isSpeaking == d.0.Some?
                   && calls == old(calls) + (if d.0.Some? then StartCalls(d.0.value, preferences, voices) else [])
    {
      voices := available;
      if |voices| > 0 {
        voicesLoaded := true;
        ClearLoadListeners();
        ProcessPendingQueue();
      }
    }

    /**
     * `forceLoadVoices`, run when the fallback timer armed at construction
     * fires (`VOICES_LOAD_TIMEOUT`, 5000 ms): voices are marked ready even
     * when the list is empty, the listeners are cleared and the queue is
     * drained.
     */
    method OnLoadTimeout(available: seq<VoiceInfo>)
      requires Valid() && loadTimerArmed
      modifies this
      ensures Valid()
      ensures voices == available && preferences == old(preferences)
      ensures voicesLoaded && !loadTimerArmed && !voicesChangedHandler
      ensures var d := Drain(old(pendingQueue));
              pendingQueue == d.1 && isSpeaking == d.0.Some?
              && calls == old(calls) + (if d.0.Some? then StartCalls(d.0.value, preferences, voices) else [])
    {
      voices := available;
      voicesLoaded := true;
      ClearLoadListeners();
      ProcessPendingQueue();
    }

    /**
     * `speak`: without a window or a speech engine nothing happens. With
     * `immediate` the engine is cancelled and the queue emptied first; the
     * rate, pitch and volume given overwrite the stored preferences; then
     * the message goes through `speakInternal`.
     */
    method Speak(message: string, options: VoiceOptions)
      requires Valid()
      modifies this
      ensures Valid()
      ensures voices == old(voices) && voicesLoaded == old(voicesLoaded)
      ensures loadTimerArmed == old(loadTimerArmed) && voicesChangedHandler == old(voicesChangedHandler)
      ensures !(hasWindow && hasSpeech) ==>
                preferences == old(preferences) && pendingQueue == old(pendingQueue)
                && isSpeaking == old(isSpeaking) && calls == old(calls)
      ensures hasWindow && hasSpeech ==>
                var before := if options.immediate then [] else old(pendingQueue);
                var cancelled := if options.immediate then [CancelAll] else [];
                && preferences == old(preferences).(
                     rate := if options.rate.Some? then options.rate else old(preferences).rate,
                     pitch := if options.pitch.Some? then options.pitch else old(preferences).pitch,
                     volume := if options.volume.Some? then options.volume else old(preferences).volume)
                && (!voicesLoaded || old(isSpeaking) ==>
                      pendingQueue == before + [message] && isSpeaking == old(isSpeaking)
                      && calls == old(calls) + cancelled)
                && (voicesLoaded && !old(isSpeaking) ==>
                      pendingQueue == before && isSpeaking
                      && calls == old(calls) + cancelled + StartCalls(message, preferences, voices))
    {
      if !hasWindow || !hasSpeech {
        return;
      }
      if options.immediate {
        calls := calls + [CancelAll];
        pendingQueue := [];
      }
      if options.rate.Some? { preferences := preferences.(rate := options.rate); }
      if options.pitch.Some? { preferences := preferences.(pitch := options.pitch); }
      if options.volume.Some? { preferences := preferences.(volume := options.volume); }
      SpeakInternal(message);
    }

    /**
     * `speakAtCountdown`: nothing for a non-positive count, else "Work/Rest in
     * N seconds" through `speak` with no options.
     */
    method SpeakAtCountdown(kind: CountdownKind, seconds: int)
      requires Valid()
      modifies this
      ensures Valid()
      ensures preferences == old(preferences) && voices == old(voices) && voicesLoaded == old(voicesLoaded)
      ensures loadTimerArmed == old(loadTimerArmed) && voicesChangedHandler == old(voicesChangedHandler)
      ensures seconds <= 0 || !(hasWindow && hasSpeech) ==>
                pendingQueue == old(pendingQueue) && isSpeaking == old(isSpeaking) && calls == old(calls)
      ensures seconds > 0 && hasWindow && hasSpeech ==>
                (!voicesLoaded || old(isSpeaking) ==>
                   pendingQueue == old(pendingQueue) + [CountdownText(kind, seconds)]
                   && isSpeaking == old(isSpeaking) && calls == old(calls))
                && (voicesLoaded && !old(isSpeaking) ==>
                   pendingQueue == old(pendingQueue) && isSpeaking
                   && calls == old(calls) + StartCalls(CountdownText(kind, seconds), preferences, voices))
    {
      if seconds <= 0 {
        return;
      }
      Speak(CountdownText(kind, seconds), NoOptions());
    }

    /** `setVoicePreferences`: the supplied fields replace the stored ones, the others stay. */
    method SetVoicePreferences(p: Preferences)
      requires Valid()
      modifies this
      ensures Valid()
      ensures preferences.rate == (if p.rate.Some? then p.rate else old(preferences).rate)
      ensures preferences.pitch == (if p.pitch.Some? then p.pitch else old(preferences).pitch)
      ensures preferences.volume == (if p.volume.Some? then p.volume else old(preferences).volume)
      ensures preferences.voiceName == (if p.voiceName.Some? then p.voiceName else old(preferences).voiceName)
      ensures preferences.voiceLang == (if p.voiceLang.Some? then p.voiceLang else old(preferences).voiceLang)
      ensures voices == old(voices) && voicesLoaded == old(voicesLoaded) && isSpeaking == old(isSpeaking)
      ensures pendingQueue == old(pendingQueue) && calls == old(calls)
      ensures loadTimerArmed == old(loadTimerArmed) && voicesChangedHandler == old(voicesChangedHandler)
    {
      preferences := Preferences(
        if p.rate.Some? then p.rate else preferences.rate,
        if p.pitch.Some? then p.pitch else preferences.pitch,
        if p.volume.Some? then p.volume else preferences.volume,
        if p.voiceName.Some? then p.voiceName else preferences.voiceName,
        if p.voiceLang.Some? then p.voiceLang else preferences.voiceLang);
    }

    /** `isReady`: false outside a window, else whether voices are loaded; by the invariant, just the latter. */
    method IsReady() returns (ready: bool)
      requires Valid()
      ensures ready == voicesLoaded
    {
      if !hasWindow {
        return false;
      }
      return voicesLoaded;
    }

    /**
     * `cancel`: cancels the engine, empties the queue and clears the
     * speaking flag. Outside a window, or without a speech engine (where the
     * platform call would fail and abandon the method), nothing changes.
     */
    method Cancel()
      requires Valid()
      modifies this
      ensures Valid()
      ensures hasWindow && hasSpeech ==> pendingQueue == [] && !isSpeaking && calls == old(calls) + [CancelAll]
      ensures !(hasWindow && hasSpeech) ==>
                pendingQueue == old(pendingQueue) && isSpeaking == old(isSpeaking) && calls == old(calls)
      ensures voices == old(voices) && voicesLoaded == old(voicesLoaded) && preferences == old(preferences)
      ensures loadTimerArmed == old(loadTimerArmed) && voicesChangedHandler == old(voicesChangedHandler)
    {
      if !hasWindow || !hasSpeech {
        return;
      }
      calls := calls + [CancelAll];
      pendingQueue := [];
      isSpeaking := false;
    }

    /** `cleanup`: cancel, then release the load listeners. */
    method Cleanup()
      requires Valid()
      modifies this
      ensures Valid()
      ensures pendingQueue == [] && !isSpeaking && !loadTimerArmed && !voicesChangedHandler
      ensures voices == old(voices) && voicesLoaded == old(voicesLoaded) && preferences == old(preferences)
      ensures hasWindow && hasSpeech ==> calls == old(calls) + [CancelAll]
      ensures !(hasWindow && hasSpeech) ==> calls == old(calls)
    {
      Cancel();
      ClearLoadListeners();
    }
  }
}
