/**
 * The `MusicPlayer` object: its fields and the methods that update them
 * in place. Each state-changing method is proved against the matching
 * function of `Playback` on the abstract value `Model()`.
 */
module Player {
  import opened Options
  import opened Paths
  import opened Playlist
  import opened Buttons
  import Playback
  import opened PlaylistView

  /** The input events the main loop dispatches; anything else is ignored. */
  datatype Event =
    | Quit
    | MouseButtonDown(button: int, px: int, py: int)
    | MouseMotion(px: int, py: int)
    | OtherEvent

  /** The identifier pygame gives the left mouse button. */
  const LeftButton := 1

  class MusicPlayer {
    var playlistOffset: int
    var playlist: seq<string>
    var currentIndex: int
    /** The chosen folder; `""` stands for Python's `None` and for a cancelled dialog. */
    var musicFolder: string
    var buttons: seq<(Button, Rect)>
    var hoveredButton: Option<Button>
    /** The process-wide audio mixer, held here as a field. */
    var mixer: Playback.Mixer

    /** The playback state the commands act on. */
    function Model(): Playback.Session
      reads this
    {
      Playback.Session(playlist, currentIndex, musicFolder, mixer)
    }

    /** The object invariant: a well-formed session, the fixed layout, and the panel never scrolled. */
    ghost predicate Valid()
      reads this
      ensures Valid() ==> |buttons| == 6 && playlistOffset == 0
      ensures Valid() ==> 0 <= currentIndex && (playlist == [] ==> currentIndex == 0)
      ensures Valid() && playlist != [] ==> currentIndex < |playlist|
    {
      Playback.Wf(Model()) && buttons == Layout() && playlistOffset == 0
    }

    constructor ()
      ensures Valid()
      ensures Model() == Playback.InitialSession() && hoveredButton == None
    {
      playlistOffset := 0;
      playlist := [];
      currentIndex := 0;
      musicFolder := "";
      buttons := [];
      hoveredButton := None;
      mixer := Playback.Idle;
      new;
      SetupButtons();
    }

    /** `setup_buttons`: lay out the six fixed rectangles. */
    method SetupButtons()
      modifies this`buttons
      ensures buttons == Layout()
    {
      buttons := [
        (PlayButton, Rect(20, ButtonTop, ButtonWidth, ButtonHeight)),
        (PauseButton, Rect(140, ButtonTop, ButtonWidth, ButtonHeight)),
        (StopButton, Rect(260, ButtonTop, ButtonWidth, ButtonHeight)),
        (NextButton, Rect(380, ButtonTop, ButtonWidth, ButtonHeight)),
        (PrevButton, Rect(500, ButtonTop, ButtonWidth, ButtonHeight)),
        (SelectFolderButton, Rect(620, ButtonTop, 150, ButtonHeight))
      ];
    }

    /**
     * `load_music`, given the listing of `musicFolder`: rebuild the
     * playlist entry by entry and report whether the notice is shown.
     */
    method LoadMusic(listing: seq<string>) returns (notice: bool)
      modifies this`playlist
      ensures Model() == Playback.LoadMusic(old(Model()), listing)
      ensures notice == Playback.NoMusicNotice(musicFolder, listing)
    {
      notice := false;
      if musicFolder != "" {
        playlist := [];
        for i := 0 to |listing|
          invariant playlist == Mp3Files(listing[..i])
        {
          assert listing[..i + 1][..i] == listing[..i];
          if IsMp3(listing[i]) {
            playlist := playlist + [listing[i]];
          }
        }
        assert listing[..|listing|] == listing;
        if playlist == [] {
          notice := true;
        }
      }
    }

    /** `select_music_folder`, given the dialog's answer and that folder's listing. */
    method SelectMusicFolder(dialog: string, listing: seq<string>) returns (notice: bool)
      requires Valid()
      modifies this`musicFolder, this`playlist, this`currentIndex, this`mixer
      ensures Valid()
      ensures Model() == Playback.SelectMusicFolder(old(Model()), dialog, listing)
      ensures notice == Playback.NoMusicNotice(dialog, listing)
    {
      musicFolder := dialog;
      notice := LoadMusic(listing);
      currentIndex := 0;
      Stop();
      Play();
    }

    /** `play`. */
    method Play()
      requires Valid()
      modifies this`mixer
      ensures Valid()
      ensures Model() == Playback.Play(old(Model()))
    {
      if mixer.busy {
        mixer := Playback.Unpause(mixer);
      } else {
        if playlist != [] {
          mixer := Playback.Load(mixer, Join(musicFolder, playlist[currentIndex]));
          mixer := Playback.Start(mixer);
        }
      }
    }

    /** `pause`. */
    method Pause()
      requires Valid()
      modifies this`mixer
      ensures Valid()
      ensures Model() == Playback.Pause(old(Model()))
    {
      mixer := Playback.PauseMixer(mixer);
    }

    /** `stop`. */
    method Stop()
      requires Valid()
      modifies this`mixer
      ensures Valid()
      ensures Model() == Playback.Stop(old(Model()))
    {
      mixer := Playback.StopMixer(mixer);
    }

    /**
     * `next_track`. With no tracks the modulo raises before anything is
     * assigned: `fault` reports that, and the state is left as it was.
     */
    method NextTrack() returns (fault: bool)
      requires Valid()
      modifies this`currentIndex, this`mixer
      ensures Valid()
      ensures Playback.NextTrack(old(Model())) == if fault then Playback.ModuloByZero else Playback.Ok(Model())
      ensures fault ==> Model() == old(Model())
    {
      if |playlist| == 0 {
        return true;
      }
      fault := false;
      currentIndex := NextIndex(currentIndex, |playlist|);
      Stop();
      Play();
    }

    /** `prev_track`, with the same fault as `next_track` on an empty playlist. */
    method PrevTrack() returns (fault: bool)
      requires Valid()
      modifies this`currentIndex, this`mixer
      ensures Valid()
      ensures Playback.PrevTrack(old(Model())) == if fault then Playback.ModuloByZero else Playback.Ok(Model())
      ensures fault ==> Model() == old(Model())
    {
      if |playlist| == 0 {
        return true;
      }
      fault := false;
      currentIndex := PrevIndex(currentIndex, |playlist|);
      Stop();
      Play();
    }

    /** `handle_hover` at the pointer position: remember the first button under it, or none. */
    method HandleHover(px: int, py: int)
      requires Valid()
      modifies this`hoveredButton
      ensures Valid()
      ensures hoveredButton == HitTest(buttons, px, py)
      ensures forall b :: hoveredButton == Some(b) <==> Contains(ButtonRect(b), px, py)
    {
      forall b ensures HitTest(Layout(), px, py) == Some(b) <==> Contains(ButtonRect(b), px, py) {
        HitTestFindsContainingButton(px, py, b);
      }
      var i := 0;
      while i < |buttons|
        invariant 0 <= i <= |buttons|
        invariant forall k :: 0 <= k < i ==> !Contains(buttons[k].1, px, py)
      {
        if Contains(buttons[i].1, px, py) {
          hoveredButton := Some(buttons[i].0);
          return;
        }
        i := i + 1;
      }
      hoveredButton := None;
    }

    /** The branch of `handle_click` that runs the command named by a button. */
    method RunCommand(b: Button, dialog: string, listing: seq<string>) returns (fault: bool, notice: bool)
      requires Valid()
      modifies this`musicFolder, this`playlist, this`currentIndex, this`mixer
      ensures Valid()
      ensures Playback.Command(old(Model()), b, dialog, listing)
        == if fault then Playback.ModuloByZero else Playback.Ok(Model())
      ensures fault ==> Model() == old(Model())
      ensures notice == (b == SelectFolderButton && Playback.NoMusicNotice(dialog, listing))
    {
      fault, notice := false, false;
      match b
      case PlayButton => Play();
      case PauseButton => Pause();
      case StopButton => Stop();
      case NextButton => fault := NextTrack();
      case PrevButton => fault := PrevTrack();
      case SelectFolderButton => notice := SelectMusicFolder(dialog, listing);
    }

    /**
     * `handle_click` at the pointer position: run the command of every
     * button under the pointer. Because the rectangles are disjoint at most
     * one runs; `dispatched` counts them, `fault` reports a raised modulo,
     * `notice` the "No Music Found" message.
     */
    method HandleClick(px: int, py: int, dialog: string, listing: seq<string>)
      returns (dispatched: nat, fault: bool, notice: bool)
      requires Valid()
      modifies this`musicFolder, this`playlist, this`currentIndex, this`mixer
      ensures Valid()
      ensures dispatched <= 1
      ensures dispatched == 0 <==> HitTest(Layout(), px, py).None?
      ensures HitTest(Layout(), px, py).None? ==> Model() == old(Model()) && !fault && !notice
      ensures HitTest(Layout(), px, py).Some? ==>
        var b := HitTest(Layout(), px, py).value;
        Playback.Command(old(Model()), b, dialog, listing)
          == (if fault then Playback.ModuloByZero else Playback.Ok(Model())) &&
        (fault ==> Model() == old(Model())) &&
        notice == (b == SelectFolderButton && Playback.NoMusicNotice(dialog, listing))
    {
      dispatched, fault, notice := 0, false, false;
      var items := buttons;
      ghost var hit := -1;
      ghost var s0 := Model();
      for i := 0 to |items|
        invariant Valid() && items == Layout()
        invariant !fault
        invariant -1 <= hit < i
        invariant hit == -1 <==> forall k :: 0 <= k < i ==> !Contains(items[k].1, px, py)
        invariant hit == -1 ==> dispatched == 0 && Model() == s0 && !notice
        invariant hit >= 0 ==>
          dispatched == 1 && Contains(items[hit].1, px, py) &&
          Playback.Command(s0, items[hit].0, dialog, listing) == Playback.Ok(Model()) &&
          notice == (items[hit].0 == SelectFolderButton && Playback.NoMusicNotice(dialog, listing))
      {
        if Contains(items[i].1, px, py) {
          if hit >= 0 {
            LayoutIsDisjoint(hit, i, px, py);
          }
          hit := i;
          dispatched := dispatched + 1;
          fault, notice := RunCommand(items[i].0, dialog, listing);
          if fault {
            HitTestFindsContainingButton(px, py, items[i].0);
            return;
          }
        }
      }
      if hit >= 0 {
        HitTestFindsContainingButton(px, py, items[hit].0);
      }
    }

    /**
     * The index and coordinate arithmetic of `draw_playlist`: the rows it
     * draws, starting at `playlistOffset` and at most `VisibleItems` of them.
     */
    method DrawPlaylist() returns (rows: seq<Row>)
      requires Valid()
      ensures |rows| <= VisibleItems
      ensures |rows| == if playlist == [] then 0 else WindowEnd(playlistOffset, |playlist|) - playlistOffset
      ensures forall k :: 0 <= k < |rows| ==>
        var i := playlistOffset + k;
        0 <= i < |playlist| &&
        rows[k] == Row(i, RowX, FirstRowY + (i - playlistOffset) * ItemHeight, playlist[i])
    {
      rows := [];
      if playlist != [] {
        var startIndex := playlistOffset;
        var endIndex := WindowEnd(startIndex, |playlist|);
        for i := startIndex to endIndex
          invariant |rows| == i - startIndex
          invariant forall k :: 0 <= k < |rows| ==>
            rows[k] == Row(startIndex + k, RowX, FirstRowY + k * ItemHeight, playlist[startIndex + k])
        {
          var y := FirstRowY + (i - startIndex) * ItemHeight;
          rows := rows + [Row(i, RowX, y, playlist[i])];
        }
      }
    }

    /**
     * One event of the main loop's batch. The event carries the pointer
     * position that the click and hover handlers test. Returns whether
     * the loop keeps running, a raised modulo, and the "No Music Found" notice.
     */
    method HandleEvent(e: Event, dialog: string, listing: seq<string>)
      returns (running: bool, fault: bool, notice: bool)
      requires Valid()
      modifies this`musicFolder, this`playlist, this`currentIndex, this`mixer, this`hoveredButton
      ensures Valid()
      ensures running <==> !e.Quit?
      ensures fault ==> e.MouseButtonDown? && e.button == LeftButton && Model() == old(Model())
      ensures !(e.MouseButtonDown? && e.button == LeftButton) ==> Model() == old(Model()) && !notice
      ensures e.MouseButtonDown? && e.button == LeftButton ==>
        var hit := HitTest(Layout(), e.px, e.py);
        (hit.None? ==> Model() == old(Model()) && !fault && !notice) &&
        (hit.Some? ==>
          Playback.Command(old(Model()), hit.value, dialog, listing)
            == (if fault then Playback.ModuloByZero else Playback.Ok(Model())) &&
          notice == (hit.value == SelectFolderButton && Playback.NoMusicNotice(dialog, listing)))
      ensures e.MouseMotion? ==> hoveredButton == HitTest(Layout(), e.px, e.py)
      ensures !e.MouseMotion? ==> hoveredButton == old(hoveredButton)
    {
      running, fault, notice := true, false, false;
      match e
      case Quit =>
        running := false;
      case MouseButtonDown(button, px, py) =>
        if button == LeftButton {
          var dispatched;
          dispatched, fault, notice := HandleClick(px, py, dialog, listing);
        }
      case MouseMotion(px, py) =>
        HandleHover(px, py);
      case OtherEvent =>
    }
  }
}
