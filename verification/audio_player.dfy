/** The player of lib/audio-player.js. Playing a file is the external `play-sound` call: the
    model is told whether each play succeeded and records what the player does as a list of
    events, the plays it attempts and the pauses it sleeps. */
module AudioPlayer {
  import opened Common
  import opened Text
  import opened Json
  import ConfigManager

  /** An attempted play of `path` and whether it succeeded, or a pause of `ms` milliseconds. */
  datatype Event = Play(path: string, ok: bool) | Pause(ms: int)

  const PauseBetweenFiles := 1000

  /** The truthiness of `playback.auto_play` in a configuration (`undefined` is false). */
  predicate AutoPlaySetting(config: Json) {
    match ConfigManager.Lookup(config, ["playback", "auto_play"])
    case Some(v) => Truthy(v)
    case None => false
  }

  /** With the built-in defaults, playback is on. */
  lemma DefaultAutoPlay()
    ensures AutoPlaySetting(ConfigManager.DefaultConfig())
  {
    ConfigManager.DefaultPlayback();
  }

  /** The dotted path the player reads splits into its two keys. */
  lemma AutoPlayPath()
    ensures SplitWhere("playback.auto_play", ConfigManager.IsDot) == ["playback", "auto_play"]
  {
    AutoPlayPathPieces();
    SplitWhereFirst("playback", '.', "auto_play", ConfigManager.IsDot);
    SplitWhereNone("auto_play", ConfigManager.IsDot);
  }

  lemma AutoPlayPathPieces()
    ensures "playback.auto_play" == "playback" + ['.'] + "auto_play"
    ensures forall i :: 0 <= i < |"playback"| ==> !ConfigManager.IsDot("playback"[i])
    ensures forall i :: 0 <= i < |"auto_play"| ==> !ConfigManager.IsDot("auto_play"[i])
  {
  }

  /** What `playMultipleFiles` does for the file at position `k` of `paths`: play it, then
      pause if the play succeeded and a later file follows. */
  function Segment(paths: seq<string>, oks: seq<bool>, k: nat): (r: seq<Event>)
    requires |oks| == |paths| && k < |paths|
    ensures 1 <= |r| <= 2 && r[0] == Play(paths[k], oks[k])
    ensures |r| == 2 <==> oks[k] && k < |paths| - 1
  {
    [Play(paths[k], oks[k])] + (if oks[k] && k < |paths| - 1 then [Pause(PauseBetweenFiles)] else [])
  }

  /** The events of the first `n` files of a `playMultipleFiles` call on `paths`, where
      `oks[k]` says whether playing file `k` succeeds. */
  function Schedule(paths: seq<string>, oks: seq<bool>, n: nat): (r: seq<Event>)
    requires |oks| == |paths| && n <= |paths|
    ensures n <= |r| <= 2 * n
  {
    if n == 0 then [] else Schedule(paths, oks, n - 1) + Segment(paths, oks, n - 1)
  }

  /** The paths of the attempted plays, in order. */
  function Attempts(events: seq<Event>): seq<string>
  {
    if events == [] then []
    else
      var last: seq<string> := match events[|events| - 1] case Play(p, _) => [p] case Pause(_) => [];
      Attempts(events[..|events| - 1]) + last
  }

  lemma {:induction false} AttemptsAppend(a: seq<Event>, b: seq<Event>)
    ensures Attempts(a + b) == Attempts(a) + Attempts(b)
    decreases |b|
  {
    if b == [] {
      assert a + b == a;
    } else {
      assert (a + b)[..|a + b| - 1] == a + b[..|b| - 1];
      AttemptsAppend(a, b[..|b| - 1]);
    }
  }

  /** Every file is attempted exactly once, in list order, whatever the plays before it did:
      a failure does not stop the loop. */
  lemma {:induction false} ScheduleAttemptsAll(paths: seq<string>, oks: seq<bool>, n: nat)
    requires |oks| == |paths| && n <= |paths|
    ensures Attempts(Schedule(paths, oks, n)) == paths[..n]
  {
    if n > 0 {
      var e0 := Schedule(paths, oks, n - 1);
      var seg := Segment(paths, oks, n - 1);
      ScheduleAttemptsAll(paths, oks, n - 1);
      SegmentAttempt(paths, oks, n - 1);
      AttemptsSnoc(e0, seg, paths[..n - 1], paths[n - 1]);
      TakeSnoc(paths, n);
      ScheduleUnfold(paths, oks, n);
    }
  }

  lemma ScheduleUnfold(paths: seq<string>, oks: seq<bool>, n: nat)
    requires |oks| == |paths| && 0 < n <= |paths|
    ensures Schedule(paths, oks, n) == Schedule(paths, oks, n - 1) + Segment(paths, oks, n - 1)
  {
  }

  lemma AttemptsSnoc(e0: seq<Event>, seg: seq<Event>, before: seq<string>, p: string)
    requires Attempts(e0) == before && Attempts(seg) == [p]
    ensures Attempts(e0 + seg) == before + [p]
  {
    AttemptsAppend(e0, seg);
  }

  lemma SegmentAttempt(paths: seq<string>, oks: seq<bool>, k: nat)
    requires |oks| == |paths| && k < |paths|
    ensures Attempts(Segment(paths, oks, k)) == [paths[k]]
  {
    var seg := Segment(paths, oks, k);
    var play := [Play(paths[k], oks[k])];
    assert Attempts(play) == [paths[k]] by {
      assert play[..0] == [];
    }
    if |seg| == 2 {
      assert seg[..1] == play;
    } else {
      assert seg == play;
    }
  }

  /** The pauses sit exactly after the successful plays that a later event follows, each
      lasts 1000 ms, and the events start and end with a play. */
  predicate PausesAfterSuccesses(e: seq<Event>) {
    (forall j :: 0 <= j < |e| - 1 ==> (e[j + 1].Pause? <==> e[j].Play? && e[j].ok))
    && (forall j :: 0 <= j < |e| && e[j].Pause? ==> e[j].ms == PauseBetweenFiles)
    && (e == [] || (e[0].Play? && e[|e| - 1].Play?))
  }

  /** A full schedule pauses after each successful play except the last file's, and never
      after a failed one. */
  lemma ScheduleShape(paths: seq<string>, oks: seq<bool>)
    requires |oks| == |paths|
    ensures PausesAfterSuccesses(Schedule(paths, oks, |paths|))
  {
    SchedulePrefixShape(paths, oks, |paths|);
  }

  lemma {:induction false} SchedulePrefixShape(paths: seq<string>, oks: seq<bool>, n: nat)
    requires |oks| == |paths| && n <= |paths|
    ensures var e := Schedule(paths, oks, n);
      (forall j :: 0 <= j < |e| - 1 ==> (e[j + 1].Pause? <==> e[j].Play? && e[j].ok))
      && (forall j :: 0 <= j < |e| && e[j].Pause? ==> e[j].ms == PauseBetweenFiles)
      && (n == 0 <==> e == [])
      && (e == [] || e[0].Play?)
      && (0 < n < |paths| ==> e[|e| - 1].Pause? || !e[|e| - 1].ok)
      && (0 < n == |paths| ==> e[|e| - 1].Play?)
  {
    if n > 0 {
      SchedulePrefixShape(paths, oks, n - 1);
      var e0 := Schedule(paths, oks, n - 1);
      var seg := Segment(paths, oks, n - 1);
      var e := e0 + seg;
      assert e == Schedule(paths, oks, n);
      forall j | 0 <= j < |e| - 1 ensures (e[j + 1].Pause? <==> e[j].Play? && e[j].ok) {
        if j + 1 < |e0| {
          assert e[j] == e0[j] && e[j + 1] == e0[j + 1];
        } else if j + 1 == |e0| {
          assert e[j] == e0[|e0| - 1] && e[j + 1] == seg[0];
        } else {
          assert e[j] == seg[j - |e0|] && e[j + 1] == seg[j + 1 - |e0|];
        }
      }
      forall j | 0 <= j < |e| && e[j].Pause? ensures e[j].ms == PauseBetweenFiles {
        if j < |e0| {
          assert e[j] == e0[j];
        }
      }
    }
  }

  /** `AudioPlayer`: `autoPlay` is read once, from `playback.auto_play`, when the player is
      made. */
  class AudioPlayer {
    const autoPlay: bool

    constructor (config: ConfigManager.ConfigManager)
      ensures autoPlay == AutoPlaySetting(config.config)
    {
      AutoPlayPath();
      var setting := config.Get("playback.auto_play");
      autoPlay := match setting case Some(v) => Truthy(v) case None => false;
    }

    /** `playIfEnabled(filePath)`: plays the file once when `autoPlay` is on and nothing
        otherwise; `failed` says the returned promise rejects, which happens exactly when the
        play was attempted and failed. */
    method PlayIfEnabled(filePath: string, ok: bool) returns (events: seq<Event>, failed: bool)
      ensures autoPlay ==> events == [Play(filePath, ok)] && failed == !ok
      ensures !autoPlay ==> events == [] && !failed
    {
      events := [];
      failed := false;
      if autoPlay {
        events := [Play(filePath, ok)];
        failed := !ok;
      }
    }

    /** `playMultipleFiles(filePaths)`: with `autoPlay` off nothing is played; otherwise every
        file is played in order, a failure is reported and skipped, and a successful play of
        any file but the last is followed by a 1000 ms pause. `oks[k]` says whether playing
        file `k` succeeds. The call itself never fails. */
    method PlayMultipleFiles(filePaths: seq<string>, oks: seq<bool>) returns (events: seq<Event>)
      requires |oks| == |filePaths|
      ensures !autoPlay ==> events == []
      ensures autoPlay ==> events == Schedule(filePaths, oks, |filePaths|)
    {
      events := [];
      if !autoPlay {
        return;
      }
      var i := 0;
      while i < |filePaths|
        invariant 0 <= i <= |filePaths|
        invariant events == Schedule(filePaths, oks, i)
      {
        events := events + [Play(filePaths[i], oks[i])];
        if oks[i] {
          if i < |filePaths| - 1 {
            events := events + [Pause(PauseBetweenFiles)];
          }
        } else {
          i := i + 1;
          continue;
        }
        i := i + 1;
      }
    }
  }
}
