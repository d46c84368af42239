# Music player: a verified model of its playback and hit-testing core

This project models the `MusicPlayer` class of a small pygame/tkinter
desktop music player (`Music_Player_Project2.py`) and proves the promises
its logic makes. The user picks a folder. The playlist becomes the folder's
`.mp3` files in listing order. Six fixed buttons drive play, pause, stop,
next, previous and folder selection. A panel lists up to ten tracks.

The model has these modules:

- `Paths`: Python's `str.endswith` and `str.startswith`, and POSIX
  `os.path.join` for a folder and one file name.
- `Playlist`: the `.mp3` filter (`Mp3Files`), the wrap-around index
  arithmetic of `next_track` / `prev_track` (`NextIndex`, `PrevIndex`),
  and `Advance` (k steps of `NextIndex`).
- `Buttons`: the six rectangles of `setup_buttons`, and pygame's half-open
  `collidepoint` test (`Contains`). `HitTest` is the first-match scan of
  `handle_hover`.
- `Playback`: an abstract mixer record (busy, paused, loaded path). A
  `Session` value holds the playlist, index, folder and mixer. Each
  command is a pure function over it. `Wf` is the invariant they all keep:
  the index is 0 or names a track, and the mixer is stopped, playing, or
  paused while busy (`MixerOk`). A command that can fail returns a
  `Step`; `ModuloByZero` stands for the `ZeroDivisionError` that
  `% len(self.playlist)` raises on an empty playlist.
- `PlaylistView`: the panel constants (10 visible rows, each 20 pixels
  high, the first at y = 160) and the window end `min(offset + 10, len)`.
- `Player`: the class `MusicPlayer`, with the source's fields. Each
  playback command method is proved against the matching `Playback`
  function: its `ensures` equates `Model()` afterwards with that function
  of `old(Model())`. The click and event handlers state their new
  `Model()` through `Playback.Command` for the button that was hit. `Valid()` is the object invariant: `Wf`, the fixed
  layout, and `playlistOffset == 0` (nothing ever scrolls the panel).

Inputs that the program gets from the outside world are parameters:

- the folder dialog's answer is a string, `""` for a cancelled dialog;
- the directory listing is a `seq<string>`, in whatever order the
  platform returns it;
- the pointer position is a pair of integers;
- the "No Music Found" message box is a returned boolean, `notice`.

Python's `None` for an unset folder is modelled as `""`. Both are falsy,
and no path is ever joined while the folder is unset, because the
playlist is still empty then.

Behaviour of the code that the model keeps, even where it is surprising:

- `next_track` / `prev_track` on an empty playlist raise rather than do
  nothing. The model returns a fault and leaves the state unchanged,
  because the modulo raises before anything is assigned.
- Cancelling the folder dialog is not a no-op. The folder becomes `""`,
  the old playlist is kept, the index goes back to 0, and playback
  restarts with `join("", name)`. That is the bare file name, relative to
  the working directory (`CancelledDialogLoadsBareName`).
- `handle_click` does not stop at the first match: it runs the command
  of every button containing the point. The rectangles are disjoint, so
  at most one command runs (`HandleClick`'s `dispatched <= 1`).

## Model

| member | source | states |
|---|---|---|
| `Paths.Join` | Music_Player_Project2.py:48 | the joined path ends with the file name; an absolute name is the whole path; otherwise the path starts with the folder; an empty folder yields the bare name; a folder not ending in "/" is followed by exactly one "/" |
| `Paths.EndsWithSplits` | Music_Player_Project2.py:31 | `s.endswith(suffix)` holds exactly when s is some prefix followed by the suffix |
| `Paths.StartsWithSplits` | Music_Player_Project2.py:48 | `s.startswith(prefix)` holds exactly when s is the prefix followed by some rest; used for the absolute-name rule of `os.path.join` |
| `Playlist.IsMp3` | Music_Player_Project2.py:31 | a file name passes the filter exactly when it is at least four characters long and ends in ".mp3" |
| `Playlist.Mp3Files` | Music_Player_Project2.py:29-32 | the playlist holds exactly the listing entries whose name ends in ".mp3", and is no longer than the listing |
| `Playlist.Mp3FilesAppend` | Music_Player_Project2.py:30-32 | filtering keeps listing order: the filter of a concatenation is the concatenation of the filters |
| `Playlist.Mp3FilesCounts` | Music_Player_Project2.py:30-32 | each ".mp3" entry is kept as many times as it is listed, and every other entry is dropped |
| `Playlist.Mp3FilesEmpty` | Music_Player_Project2.py:30-33 | the playlist is empty exactly when no listing entry ends in ".mp3" |
| `Playlist.Mp3FilesKeepsMp3Listing` | Music_Player_Project2.py:30-32 | a listing of ".mp3" files only becomes the playlist unchanged |
| `Playlist.ListingOrderIsKept` | Music_Player_Project2.py:30-32 | ["b.mp3", "a.mp3"] gives the playlist ["b.mp3", "a.mp3"], not a sorted one |
| `Playlist.SuffixMatchIsExact` | Music_Player_Project2.py:31 | the suffix match is case-sensitive and looks at the end of the name only |
| `Playlist.NextIndex` | Music_Player_Project2.py:58 | the next index is in [0, n); from the last track it wraps to 0, otherwise it is i + 1 |
| `Playlist.PrevIndex` | Music_Player_Project2.py:63 | the previous index is in [0, n); from 0 it wraps to n - 1, otherwise it is i - 1 |
| `Playlist.PrevUndoesNext` | Music_Player_Project2.py:57-63 | for a valid index, previous after next and next after previous both give back the same index |
| `Playlist.Advance` | Music_Player_Project2.py:57-58 | repeated next steps stay in [0, n) |
| `Playlist.AdvanceWithoutWrap` | Music_Player_Project2.py:57-58 | k next steps that do not reach the end add k to the index |
| `Playlist.AdvanceAdd` | Music_Player_Project2.py:57-58 | a + b next steps are a steps followed by b steps |
| `Playlist.AdvanceCycle` | Music_Player_Project2.py:57-58 | n next steps over n tracks return to the starting index |
| `Buttons.Contains` | Music_Player_Project2.py:120 | `collidepoint` is half-open (`x <= px < x + w`, `y <= py < y + h`), so a rectangle of zero width or height contains no point |
| `Buttons.ButtonRect` | Music_Player_Project2.py:71-76 | every button is 40 high at y = 50, 100 wide except the 150-wide folder button, and lies across the 800-pixel-wide window |
| `Buttons.Layout` | Music_Player_Project2.py:67-77 | the button table has six entries, each paired with that button's own rectangle |
| `Buttons.LayoutListsEveryButtonOnce` | Music_Player_Project2.py:77 | every button name occurs in the table, and no name occurs twice |
| `Buttons.ButtonsAreDisjoint` | Music_Player_Project2.py:71-76 | no point lies inside two different buttons' half-open rectangles |
| `Buttons.LayoutIsDisjoint` | Music_Player_Project2.py:71-77 | no point lies inside the rectangles of two different table positions |
| `Buttons.HitTest` | Music_Player_Project2.py:134-140 | the scan finds nothing exactly when no rectangle contains the point; otherwise it returns the name of the first rectangle that contains it |
| `Buttons.HitTestFindsContainingButton` | Music_Player_Project2.py:134-140 | over the real layout, the scan returns button b exactly when b's rectangle contains the point |
| `Buttons.HitTestMissesOutside` | Music_Player_Project2.py:134-140 | over the real layout, the scan returns nothing exactly when the point is outside every button |
| `Playback.Load` | Music_Player_Project2.py:48 | loading a path makes it the loaded track and leaves the mixer stopped, a valid mixer state |
| `Playback.Start` | Music_Player_Project2.py:49 | playing the loaded track always gives a valid mixer state: busy exactly when a track is loaded, never paused |
| `Playback.Unpause` | Music_Player_Project2.py:45 | unpausing keeps the mixer state valid, keeps busy and the loaded track, and leaves nothing paused |
| `Playback.PauseMixer` | Music_Player_Project2.py:52 | pausing keeps the mixer state valid and pauses only busy music; unpausing playing music that was just paused gives back the mixer as it was |
| `Playback.StopMixer` | Music_Player_Project2.py:55 | stopping gives a valid, stopped mixer from any mixer, keeping the loaded track |
| `Playback.Wf` | Music_Player_Project2.py:21-22 | the session invariant: the index is 0 for an empty playlist and names a track otherwise, and the mixer is stopped, playing, or paused while busy |
| `Playback.NoMusicNotice` | Music_Player_Project2.py:33-34 | the notice is shown exactly when a folder was chosen and none of its entries ends in ".mp3" |
| `Playback.InitialSession` | Music_Player_Project2.py:20-22 | the player starts with an empty playlist, index 0, and idle audio |
| `Playback.Play` | Music_Player_Project2.py:43-49 | play changes only the mixer; busy music is resumed with its track kept; otherwise the current track of the folder is loaded and played; with no tracks nothing changes |
| `Playback.Pause` | Music_Player_Project2.py:51-52 | pause changes only the paused flag, and only for busy music |
| `Playback.Stop` | Music_Player_Project2.py:54-55 | stop changes only the mixer, leaves nothing busy or paused, and restores the invariant's mixer part from any state |
| `Playback.LoadMusic` | Music_Player_Project2.py:27-32 | with a folder chosen, the playlist becomes exactly `Mp3Files(listing)`, in listing order and with the same counts; with none, it is left as it was; nothing else changes |
| `Playback.SelectMusicFolder` | Music_Player_Project2.py:36-41 | after folder selection the index is 0 and the folder is the dialog's answer; the playlist is the new folder's ".mp3" files, or the old playlist when the dialog was cancelled; the first track, joined to the folder, is playing if there is one, and otherwise nothing is busy |
| `Playback.NextTrack` | Music_Player_Project2.py:57-60 | faults exactly on an empty playlist; otherwise the playlist and folder stay, the index moves to the wrapped next index, and that track is playing |
| `Playback.PrevTrack` | Music_Player_Project2.py:62-65 | faults exactly on an empty playlist; otherwise the playlist and folder stay, the index moves to the wrapped previous index, and that track is playing |
| `Playback.PrevTrackUndoesNextTrack` | Music_Player_Project2.py:57-65 | on a non-empty playlist, prev after next is back at the same index and plays that track again |
| `Playback.NextTrackTimes` | Music_Player_Project2.py:57-60 | repeated next-track calls keep the session well formed |
| `Playback.NextTrackTimesAdvances` | Music_Player_Project2.py:57-60 | on a non-empty playlist, k next-track calls succeed, keep the playlist and folder, and advance the index by k wrapped steps |
| `Playback.NextTrackCycle` | Music_Player_Project2.py:57-60 | len(playlist) next-track calls return to the original index |
| `Playback.NextTrackTimesOnEmpty` | Music_Player_Project2.py:58 | on an empty playlist, any number of next-track calls fails |
| `Playback.Command` | Music_Player_Project2.py:121-132 | a button's command keeps the session well formed, and faults exactly for next or prev on an empty playlist |
| `Playback.CancelledDialogLoadsBareName` | Music_Player_Project2.py:36-48 | a cancelled dialog keeps the old playlist and plays its first name joined to an empty folder, i.e. the bare name |
| `Playback.EmptyFolderShowsNotice` | Music_Player_Project2.py:33-41 | a chosen folder without ".mp3" files shows the notice, leaves an empty playlist at index 0, and nothing plays |
| `Player.MusicPlayer.Valid` | Music_Player_Project2.py:16-23 | the object invariant: six buttons, an unscrolled panel, and an index that is 0 for an empty playlist and names a track otherwise |
| `Player.MusicPlayer.constructor` | Music_Player_Project2.py:7-24 | a new player satisfies the object invariant, starts from the initial session, and has no hovered button |
| `Player.MusicPlayer.SetupButtons` | Music_Player_Project2.py:67-77 | the button table becomes the fixed layout |
| `Player.MusicPlayer.LoadMusic` | Music_Player_Project2.py:27-34 | the loop leaves exactly the state `Playback.LoadMusic` describes, and reports the notice exactly when a chosen folder has no ".mp3" file |
| `Player.MusicPlayer.SelectMusicFolder` | Music_Player_Project2.py:36-41 | keeps the invariant and leaves exactly the state `Playback.SelectMusicFolder` describes |
| `Player.MusicPlayer.Play` | Music_Player_Project2.py:43-49 | keeps the invariant and leaves exactly the state `Playback.Play` describes |
| `Player.MusicPlayer.Pause` | Music_Player_Project2.py:51-52 | keeps the invariant and leaves exactly the state `Playback.Pause` describes |
| `Player.MusicPlayer.Stop` | Music_Player_Project2.py:54-55 | keeps the invariant and leaves exactly the state `Playback.Stop` describes |
| `Player.MusicPlayer.NextTrack` | Music_Player_Project2.py:57-60 | keeps the invariant; faults with the state unchanged exactly when `Playback.NextTrack` does, and otherwise leaves its state |
| `Player.MusicPlayer.PrevTrack` | Music_Player_Project2.py:62-65 | keeps the invariant; faults with the state unchanged exactly when `Playback.PrevTrack` does, and otherwise leaves its state |
| `Player.MusicPlayer.HandleHover` | Music_Player_Project2.py:134-140 | the hovered button is the one whose rectangle contains the pointer, or none if no rectangle does |
| `Player.MusicPlayer.RunCommand` | Music_Player_Project2.py:121-132 | runs the command of the given button, leaving the state that `Playback.Command` gives |
| `Player.MusicPlayer.HandleClick` | Music_Player_Project2.py:117-132 | at most one command runs; none runs, and nothing changes, for a point outside every button; otherwise the hit button's command determines the new state |
| `PlaylistView.WindowEnd` | Music_Player_Project2.py:93 | the window end is the smaller of offset + 10 and the playlist length |
| `Player.MusicPlayer.DrawPlaylist` | Music_Player_Project2.py:89-97 | the drawn indices are exactly offset, offset + 1, ... up to min(offset + 10, len); there are at most 10 of them, each is below len(playlist), and row k sits at y = 160 + 20 * k with that track's name |
| `Player.MusicPlayer.HandleEvent` | Music_Player_Project2.py:103-110 | a quit event stops the loop; a left click outside every button changes nothing, and one on a button leaves the state, fault and notice of that button's command; pointer motion updates the hover; other events change no playback state |

## Left out

- Drawing: screen set-up, fonts, colours, `draw_buttons`, and the `blit`
  and `draw.rect` calls of `draw_playlist`. These are rendering through
  pygame. Only the row indices and coordinates are modelled.
- The event loop itself: `pygame.event.get`, the per-frame redraw,
  `display.flip` and `clock.tick(30)`. These are polling and timing. One
  dispatch of one abstract event is modelled (`HandleEvent`). The loop's
  running on to the end of its event batch after a quit is not.
- Player.MusicPlayer.HandleEvent: takes the pointer position from the
  event. The program hit-tests `pygame.mouse.get_pos()` instead, which is
  the pointer's position when the handler runs (after the whole event
  batch has been read). So a pointer that moved within one frame is not
  modelled.
- `pygame.mixer.music` is an abstract record. Decoding, audio output,
  errors loading a missing or corrupt file, and the loaded track's
  position are not modelled.
- Music ending on its own is not modelled: no transition clears `busy`
  when a track finishes. In the program `get_busy()` then turns false,
  so `play` reloads the current track instead of resuming it.
- Playback.Pause: `get_busy` is only a boolean that pause leaves set.
  Whether a given pygame version reports paused music as busy is
  library-specific. If it reports it idle, `play` after `pause` restarts
  the track instead of resuming it.
- `filedialog.askdirectory` and `messagebox.showinfo` are foreign GUI
  calls. They are modelled as an input string and the returned `notice`.
- `os.listdir` and its platform-defined order are a given input sequence.
- Paths.Join: follows the POSIX `os.path.join`. The Windows rules (drive
  letters, backslashes) are not modelled.
- A raised `ZeroDivisionError` ends the Python program. The model reports
  it as `fault` and stops there; what happens after the crash is not
  modelled.
- The unused `button_x` and `playlist_scroll_speed` are not modelled:
  nothing reads them.
