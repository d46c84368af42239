/**
 * Playback as a state machine over values. A `Session` is the part of the
 * player that the playback commands read and write; each command is a
 * function from the old session to the new one. The player class proves
 * its methods against these functions.
 */
module Playback {
  import opened Options
  import opened Paths
  import opened Playlist
  import Buttons

  /**
   * The audio mixer as the player sees it: whether music is busy, whether
   * it is paused, and the path of the track last loaded.
   */
  datatype Mixer = Mixer(busy: bool, paused: bool, loaded: Option<string>)

  const Idle := Mixer(false, false, None)

  /**
   * The three states the mixer can be in: stopped, playing, or paused
   * while busy. Paused music is busy music, and busy music has a track
   * loaded; `play` relies on this when it resumes whatever is busy.
   */
  predicate MixerOk(m: Mixer) {
    (m.paused ==> m.busy) && (m.busy ==> m.loaded.Some?)
  }

  /** `mixer.music.load(path)`: replaces the loaded track and stops playback. */
  function Load(m: Mixer, path: string): (r: Mixer)
    ensures r.loaded == Some(path) && !r.busy && !r.paused
    ensures MixerOk(r)
  {
    Mixer(false, false, Some(path))
  }

  /** `mixer.music.play()`: starts the loaded track from its beginning. */
  function Start(m: Mixer): (r: Mixer)
    ensures r.loaded == m.loaded && !r.paused
    ensures r.busy <==> m.loaded.Some?
    ensures MixerOk(r)
  {
    m.(busy := m.loaded.Some?, paused := false)
  }

  /** `mixer.music.unpause()`. */
  function Unpause(m: Mixer): (r: Mixer)
    ensures r.busy == m.busy && r.loaded == m.loaded && !r.paused
    ensures MixerOk(m) ==> MixerOk(r)
  {
    m.(paused := false)
  }

  /** `mixer.music.pause()`: only music that is busy can be paused. */
  function PauseMixer(m: Mixer): (r: Mixer)
    ensures r.busy == m.busy && r.loaded == m.loaded
    ensures r.paused <==> m.busy || m.paused
    ensures MixerOk(m) ==> MixerOk(r)
    ensures m.busy && !m.paused ==> Unpause(r) == m
  {
    if m.busy then m.(paused := true) else m
  }

  /** `mixer.music.stop()`: the loaded track stays loaded. */
  function StopMixer(m: Mixer): (r: Mixer)
    ensures !r.busy && !r.paused && r.loaded == m.loaded
    ensures MixerOk(r)
  {
    m.(busy := false, paused := false)
  }

  /** Loading a path and then playing it. */
  function PlayingTrack(path: string): Mixer {
    Mixer(true, false, Some(path))
  }

  datatype Session = Session(playlist: seq<string>, index: int, folder: string, mixer: Mixer)

  /**
   * The invariant every command keeps: the index is never negative and
   * names a track whenever there are tracks (it is 0 for an empty playlist),
   * and the mixer is in one of its three states.
   */
  predicate Wf(s: Session): (wf: bool)
    ensures wf <==> 0 <= s.index < (if s.playlist == [] then 1 else |s.playlist|) && MixerOk(s.mixer)
  {
    0 <= s.index && (s.index == 0 || s.index < |s.playlist|) && MixerOk(s.mixer)
  }

  function InitialSession(): (s: Session)
    ensures Wf(s) && s.playlist == [] && !s.mixer.busy
  {
    Session([], 0, "", Idle)
  }

  /** The outcome of a command that may fail: `%` by a zero playlist length raises. */
  datatype Step = Ok(session: Session) | ModuloByZero

  /** `play`: resume busy music, or load and start the current track. */
  function Play(s: Session): (r: Session)
    requires Wf(s)
    ensures Wf(r)
    ensures r.playlist == s.playlist && r.index == s.index && r.folder == s.folder
    ensures r.mixer.busy <==> s.mixer.busy || s.playlist != []
    ensures r.mixer.busy ==> !r.mixer.paused
    ensures s.mixer.busy ==> r.mixer.loaded == s.mixer.loaded
    ensures !s.mixer.busy && s.playlist == [] ==> r == s
    ensures !s.mixer.busy && s.playlist != [] ==>
      r.mixer.loaded == Some(Join(s.folder, s.playlist[s.index]))
  {
    if s.mixer.busy then
      s.(mixer := Unpause(s.mixer))
    else if s.playlist != [] then
      s.(mixer := Start(Load(s.mixer, Join(s.folder, s.playlist[s.index]))))
    else
      s
  }

  /** `pause`: only the mixer changes. */
  function Pause(s: Session): (r: Session)
    requires Wf(s)
    ensures Wf(r)
    ensures r.playlist == s.playlist && r.index == s.index && r.folder == s.folder
    ensures r.mixer.busy == s.mixer.busy && r.mixer.loaded == s.mixer.loaded
    ensures r.mixer.paused <==> s.mixer.busy || s.mixer.paused
  {
    s.(mixer := PauseMixer(s.mixer))
  }

  /** `stop`: only the mixer changes, and afterwards nothing is busy. */
  function Stop(s: Session): (r: Session)
    ensures Wf(s) ==> Wf(r)
    ensures MixerOk(r.mixer)
    ensures r.playlist == s.playlist && r.index == s.index && r.folder == s.folder
    ensures !r.mixer.busy && !r.mixer.paused && r.mixer.loaded == s.mixer.loaded
  {
    s.(mixer := StopMixer(s.mixer))
  }

  /** `load_music`: a chosen folder replaces the playlist by its ".mp3" entries. */
  function LoadMusic(s: Session, listing: seq<string>): (r: Session)
    ensures r.index == s.index && r.folder == s.folder && r.mixer == s.mixer
    ensures s.folder != "" ==> r.playlist == Mp3Files(listing)
    ensures s.folder != "" ==> forall f :: f in r.playlist <==> f in listing && IsMp3(f)
    ensures s.folder == "" ==> r.playlist == s.playlist
  {
    if s.folder != "" then s.(playlist := Mp3Files(listing)) else s
  }

  /** Whether `load_music` shows the "No Music Found" notice. */
  predicate NoMusicNotice(folder: string, listing: seq<string>): (shown: bool)
    ensures shown <==> folder != "" && forall k :: 0 <= k < |listing| ==> !IsMp3(listing[k])
  {
    Mp3FilesEmpty(listing);
    folder != "" && Mp3Files(listing) == []
  }

  /**
   * `select_music_folder` with the dialog's answer (`""` when it was
   * cancelled) and the chosen folder's listing: reload, go back to the
   * first track, stop, play.
   */
  function SelectMusicFolder(s: Session, dialog: string, listing: seq<string>): (r: Session)
    ensures Wf(r)
    ensures r.index == 0 && r.folder == dialog
    ensures r.playlist == if dialog != "" then Mp3Files(listing) else s.playlist
    ensures r.playlist != [] ==> r.mixer == PlayingTrack(Join(dialog, r.playlist[0]))
    ensures r.playlist == [] ==> !r.mixer.busy && r.mixer.loaded == s.mixer.loaded
  {
    var loaded := LoadMusic(s.(folder := dialog), listing);
    Play(Stop(loaded.(index := 0)))
  }

  /** `next_track`: step forward with wrap-around, then restart playback there. */
  function NextTrack(s: Session): (r: Step)
    requires Wf(s)
    ensures r.ModuloByZero? <==> s.playlist == []
    ensures r.Ok? ==>
      var t := r.session;
      Wf(t) && t.playlist == s.playlist && t.folder == s.folder &&
      t.index == NextIndex(s.index, |s.playlist|) &&
      t.mixer == PlayingTrack(Join(s.folder, s.playlist[t.index]))
  {
    if s.playlist == [] then ModuloByZero
    else Ok(Play(Stop(s.(index := NextIndex(s.index, |s.playlist|)))))
  }

  /** `prev_track`: step back with wrap-around, then restart playback there. */
  function PrevTrack(s: Session): (r: Step)
    requires Wf(s)
    ensures r.ModuloByZero? <==> s.playlist == []
    ensures r.Ok? ==>
      var t := r.session;
      Wf(t) && t.playlist == s.playlist && t.folder == s.folder &&
      t.index == PrevIndex(s.index, |s.playlist|) &&
      t.mixer == PlayingTrack(Join(s.folder, s.playlist[t.index]))
  {
    if s.playlist == [] then ModuloByZero
    else Ok(Play(Stop(s.(index := PrevIndex(s.index, |s.playlist|)))))
  }

  /** `prev_track` right after `next_track` is back at the same track, and playing it. */
  lemma PrevTrackUndoesNextTrack(s: Session)
    requires Wf(s) && s.playlist != []
    ensures NextTrack(s).Ok? && PrevTrack(NextTrack(s).session).Ok?
    ensures var t := PrevTrack(NextTrack(s).session).session;
      t.playlist == s.playlist && t.index == s.index &&
      t.mixer == PlayingTrack(Join(s.folder, s.playlist[s.index]))
  {
  }

  /** `next_track` called k times in a row. */
  function NextTrackTimes(s: Session, k: nat): (r: Step)
    requires Wf(s)
    ensures r.Ok? ==> Wf(r.session)
  {
    if k == 0 then Ok(s)
    else match NextTrackTimes(s, k - 1)
      case ModuloByZero => ModuloByZero
      case Ok(t) => NextTrack(t)
  }

  /** One call of `next_track` on a non-empty playlist, as the induction below uses it. */
  lemma NextTrackStep(t: Session)
    requires Wf(t) && t.playlist != []
    ensures NextTrack(t).Ok?
    ensures NextTrack(t).session.playlist == t.playlist && NextTrack(t).session.folder == t.folder
    ensures NextTrack(t).session.index == NextIndex(t.index, |t.playlist|)
  {
  }

  /** k calls of `next_track` advance the index k steps and keep the playlist. */
  lemma {:induction false} NextTrackTimesAdvances(s: Session, k: nat)
    requires Wf(s) && s.playlist != []
    ensures NextTrackTimes(s, k).Ok?
    ensures NextTrackTimes(s, k).session.playlist == s.playlist
    ensures NextTrackTimes(s, k).session.folder == s.folder
    ensures NextTrackTimes(s, k).session.index == Advance(s.index, |s.playlist|, k)
  {
    if k > 0 {
      NextTrackTimesAdvances(s, k - 1);
      var t := NextTrackTimes(s, k - 1).session;
      assert NextTrackTimes(s, k) == NextTrack(t);
      NextTrackStep(t);
    }
  }

  /** As many calls of `next_track` as there are tracks come back to the same track. */
  lemma NextTrackCycle(s: Session)
    requires Wf(s) && s.playlist != []
    ensures NextTrackTimes(s, |s.playlist|).Ok?
    ensures NextTrackTimes(s, |s.playlist|).session.index == s.index
  {
    NextTrackTimesAdvances(s, |s.playlist|);
    AdvanceCycle(s.index, |s.playlist|);
  }

  /** Any number of `next_track` calls on an empty playlist fails on the first one. */
  lemma {:induction false} NextTrackTimesOnEmpty(s: Session, k: nat)
    requires Wf(s) && s.playlist == [] && k > 0
    ensures NextTrackTimes(s, k) == ModuloByZero
  {
    if k > 1 {
      NextTrackTimesOnEmpty(s, k - 1);
    }
  }

  /** The command a button runs when it is clicked. */
  function Command(s: Session, b: Buttons.Button, dialog: string, listing: seq<string>): (r: Step)
    requires Wf(s)
    ensures r.Ok? ==> Wf(r.session)
    ensures r.ModuloByZero? <==> (b == Buttons.NextButton || b == Buttons.PrevButton) && s.playlist == []
  {
    match b
    case PlayButton => Ok(Play(s))
    case PauseButton => Ok(Pause(s))
    case StopButton => Ok(Stop(s))
    case NextButton => NextTrack(s)
    case PrevButton => PrevTrack(s)
    case SelectFolderButton => Ok(SelectMusicFolder(s, dialog, listing))
  }

  /** Cancelling the dialog keeps the old tracks but forgets their folder: the bare name is loaded. */
  lemma CancelledDialogLoadsBareName(s: Session, listing: seq<string>)
    requires s.playlist != []
    ensures SelectMusicFolder(s, "", listing).playlist == s.playlist
    ensures SelectMusicFolder(s, "", listing).mixer == PlayingTrack(s.playlist[0])
  {
  }

  /** A folder without ".mp3" files leaves an empty playlist, shows the notice, and nothing plays. */
  lemma EmptyFolderShowsNotice(s: Session, dialog: string, listing: seq<string>)
    requires dialog != "" && forall k :: 0 <= k < |listing| ==> !IsMp3(listing[k])
    ensures NoMusicNotice(dialog, listing)
    ensures var r := SelectMusicFolder(s, dialog, listing);
      r.playlist == [] && r.index == 0 && !r.mixer.busy
  {
    if Mp3Files(listing) != [] {
      assert Mp3Files(listing)[0] in Mp3Files(listing);
      assert false;
    }
  }
}
