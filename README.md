# Music player playback controller, in Dafny

A model of the control logic of a small Android music player: the screen
that lists the audio files found on the device and plays one at a time with
play, pause, stop, loop and a seek bar. The platform parts are abstracted as
plain state:

- the `MediaPlayer` is a `Player` record (prepared, playing, looping,
  position, duration, and whether it has played to the end of its track),
  and `mediaPlayer` is an `Option<Player>`;
- the `Handler` is the number of posted `updateProgress` callbacks
  (`pendingTicks`); `post` adds one, `removeCallbacks` removes them all and a
  callback that comes due removes itself;
- the seek bar is its value and maximum; the two time labels are strings;
- the list view sees the adapter only through the notifications it is sent,
  kept in order in `notifications`;
- whether `setDataSource` and `prepare` succeed, and the duration they report,
  is a parameter (`PrepareOutcome`) of the play operation.

Files: `MusicItem.dfy` (the track record), `MusicAdapter.dfy` (selection and
notifications of the list adapter), `TimeFormat.dfy` (`formatTime`),
`MainActivity.dfy` (the playback controller class) and `Options.dfy`.

The controller's invariant `MainActivity.Valid()` says that only one player is
alive at any time (every player created, except the current one, has been
released), that a tick is posted only while a player exists, that only a
prepared player plays, and that at most one tick is posted during a drag and
at most two otherwise. Two can be reached: a track started while the user is
dragging posts one, and the end of the drag posts another, so two progress
chains then run side by side until a drag starts or `stopMusic` runs (the
stop button, a completion without `isLooping`, or a new track, which then
posts a single tick if it opens, and none if it fails), each of which
removes every posted tick; after a pause,
or a completion with `isLooping` set, each chain ends on its own when its
tick comes due while the player is not playing.

The model follows the code as written, including these behaviours, which a
cleaner design of the same controller would avoid:

- a seek is not clamped: the player is moved to the bar's value as it stands;
- a new player is never given the current `isLooping` value, so after the loop
  button was pressed with no track loaded the next track does not loop, its
  completion is delivered, and with `isLooping` set the finished player just
  stays (not restarted, not released) until the play button starts it
  again from the beginning;
- a failed `setDataSource` or `prepare` leaves the new, unprepared player
  assigned, and the current track keeps its old value;
- the play button does not post a progress tick: after a pause, a tick that
  comes due while the player is paused ends the chain, and once play is
  pressed the bar stands still until the next drag or the next track (if
  play is pressed before that tick comes due, the chain goes on);
- `stopMusic` does not clear the current track or the bar's maximum;
- the adapter's `setSelectedPosition` redraws the whole list and takes any
  value; only a row click sends the two targeted row notifications.

## Model

| member | source | states |
|---|---|---|
| MusicItems.GettersReturnConstructorArguments | app/src/main/java/com/example/musicplayer/MusicItem.java:8-16 | getTitle, getArtist and getPath return the title, artist and path given to the constructor |
| MusicItems.ItemIsItsThreeFields | app/src/main/java/com/example/musicplayer/MusicItem.java:4-12 | an item holds nothing but its three final fields: rebuilding it from its getters gives the same item |
| TimeFormat.Pad2 | app/src/main/java/com/example/musicplayer/MainActivity.java:259 | `%02d` of a value below 100 is two digits that read back as that value |
| TimeFormat.FormatTime | app/src/main/java/com/example/musicplayer/MainActivity.java:256-260 | for a non-negative count the text is five characters: two digits, ':', two digits, with both fields below 60 |
| TimeFormat.FormatTimeFields | app/src/main/java/com/example/musicplayer/MainActivity.java:257-259 | the fields are the minute and second of the count within its hour: position in the hour = minutes*60000 + seconds*1000 + dropped milliseconds |
| TimeFormat.FormatTimeZero | app/src/main/java/com/example/musicplayer/MainActivity.java:256-259 | zero milliseconds prints as "00:00" |
| TimeFormat.FormatTimeEqualIff | app/src/main/java/com/example/musicplayer/MainActivity.java:256-259 | two counts print the same text if and only if they fall in the same whole second of their hour |
| TimeFormat.FormatTimeDropsHours | app/src/main/java/com/example/musicplayer/MainActivity.java:258 | adding whole hours does not change the text (minutes wrap at 60, there is no hour field) |
| TimeFormat.FormatTimeDropsMillis | app/src/main/java/com/example/musicplayer/MainActivity.java:257 | milliseconds below a second are truncated, not rounded |
| Adapter.ClickRedrawsEveryChangedRow | app/src/main/java/com/example/musicplayer/MusicAdapter.java:58-61 | every row whose highlight differs before and after a click is among the rows the click redraws |
| Adapter.MusicAdapter.constructor | app/src/main/java/com/example/musicplayer/MusicAdapter.java:18-29 | the adapter shares the given list, starts with selection -1 and has sent no notification |
| Adapter.MusicAdapter.HighlightedRows | app/src/main/java/com/example/musicplayer/MusicAdapter.java:45-70 | a row (one of the `getItemCount` rows, one per track of the shared list) is highlighted if and only if it equals the selection; at most one is, none when the selection is -1 |
| Adapter.MusicAdapter.OnRowClick | app/src/main/java/com/example/musicplayer/MusicAdapter.java:55-62 | the clicked row becomes the selection, [previous, clicked] are notified in that order (also when previous is -1), so every row whose highlight changed is among those redrawn, and the row's item is handed on afterwards |
| Adapter.MusicAdapter.SetSelectedPosition | app/src/main/java/com/example/musicplayer/MusicAdapter.java:72-75 | the argument is stored without a bounds check and one whole-list notification is sent |
| Activity.IndexOf | app/src/main/java/com/example/musicplayer/MainActivity.java:218 | `indexOf` returns the first index holding the item, or -1 exactly when the item is absent |
| Activity.FirstIndexUnique | app/src/main/java/com/example/musicplayer/MainActivity.java:218 | the answer of `indexOf` is unique |
| Activity.FirstIndexOfDistinct | app/src/main/java/com/example/musicplayer/MainActivity.java:218-219 | in a list without repeated items, `indexOf` of the item at a row is that row |
| Activity.MainActivity.constructor | app/src/main/java/com/example/musicplayer/MainActivity.java:28-59 | the controller starts with no player, no current track, no tick, not looping, not seeking, and an adapter over the track list with nothing selected |
| Activity.MainActivity.StopMusic | app/src/main/java/com/example/musicplayer/MainActivity.java:263-272 | without a player nothing changes (so a second stop is a no-op); otherwise the player is released, no tick stays posted, the bar is 0 and the label "00:00" |
| Activity.MainActivity.PlayMusic | app/src/main/java/com/example/musicplayer/MainActivity.java:208-240 | the old player is released before a new one is created (one player alive); on success it plays from 0 without looping, the item is current, the selection is its first row, the bar's maximum and total label show the duration, one tick is posted; on failure the unprepared player stays, no tick, current track and adapter unchanged |
| Activity.MainActivity.OnItemClick | app/src/main/java/com/example/musicplayer/MainActivity.java:59-66 | a row click then playing its track, with everything `PlayMusic` states: notifications are [previous, clicked] then, on success, one whole-list redraw; on success the selection is the first row holding the clicked track (the clicked row when tracks are distinct), the bar's maximum and total label show the duration; on failure the clicked row stays selected and bar maximum and total label are kept |
| Activity.MainActivity.OnPlayClick | app/src/main/java/com/example/musicplayer/MainActivity.java:73-75 | only an existing player that is not playing is started, and only if prepared; it resumes at its position, or at 0 when it had played to the end; ticks, looping, duration and everything else are unchanged |
| Activity.MainActivity.OnPauseClick | app/src/main/java/com/example/musicplayer/MainActivity.java:83-85 | only an existing playing player is paused; position and ticks are unchanged |
| Activity.MainActivity.OnStopClick | app/src/main/java/com/example/musicplayer/MainActivity.java:92-95 | stop, then the selection is -1 with one whole-list notification; seeking flag, bar maximum, total label and current track are kept, and without a player the bar and label are kept too |
| Activity.MainActivity.OnLoopClick | app/src/main/java/com/example/musicplayer/MainActivity.java:103-106 | `isLooping` flips and the current player, if any, takes the new value |
| Activity.MainActivity.OnProgressChanged | app/src/main/java/com/example/musicplayer/MainActivity.java:114-118 | the bar holds the reported value; the label shows it only when the user moved the thumb |
| Activity.MainActivity.OnStartTrackingTouch | app/src/main/java/com/example/musicplayer/MainActivity.java:121-124 | a drag start sets seeking and removes every posted tick |
| Activity.MainActivity.OnStopTrackingTouch | app/src/main/java/com/example/musicplayer/MainActivity.java:127-133 | a drag end clears seeking; only with a player, the position becomes the bar value unclamped (a finished player no longer counts as finished) and one tick is posted |
| Activity.MainActivity.UpdateProgress | app/src/main/java/com/example/musicplayer/MainActivity.java:243-253 | a due tick re-posts itself and shows the position on bar and label exactly when a player exists, plays and no drag is on; otherwise the chain ends |
| Activity.MainActivity.OnCompletion | app/src/main/java/com/example/musicplayer/MainActivity.java:213-235 | for the prepared player the listener was attached to (at the end of the track or after an unhandled error, whether playing, paused or looping) the player stops playing and counts as finished; `stopMusic` runs only when `isLooping` is false, otherwise the finished player, the ticks, the bar and the label all stay |

## Left out

- Permission check and permission callback (MainActivity.java:140-164): platform permission dialogs; no controller state.
- `loadMusic` (MainActivity.java:167-205): a background thread reading the media index; the track list is the constructor's input and is not changed afterwards.
- `onDestroy` (MainActivity.java:276-280): a lifecycle hook; it removes the posted ticks and then does what `StopMusic` does.
- Views, view holders, animations, toasts, the "now playing" label and button captions: user interface only.
- Real decoding and time: a player's position does not advance by itself, and when completion fires is not modelled; `OnCompletion` is the event itself, and what an unhandled playback error does to the player besides calling it is not modelled.
- The Handler's timing: the 1000 ms delay is the constant `ProgressIntervalMs`; only which callbacks are posted is modelled.
- The seek bar widget's own clamping of its value to [0, max], and the initial texts of the two time labels, which come from the layout file (modelled as "00:00"); the layout is not part of this model.
- Activity.MainActivity.OnPlayClick: `start()` and `stop()` on an unprepared player (after a failed open) are modelled as leaving it as it is; the platform's reaction to calls in a wrong player state (an exception or an error callback) is not modelled, and neither is `stop()` throwing inside `StopMusic`. A seek on a finished player is modelled as making it resume from the sought position when started.
- Activity.IndexOf: uses value equality of items, while the Java `indexOf` compares references because `MusicItem` does not override `equals`; the two differ only when the list holds two items with the same title, artist and path.
- MusicItems.GettersReturnConstructorArguments: strings are never null here, while the platform may hand a null artist or path to the Java constructor.
- Non-ASCII digits that `String.format` may produce under some locales are not modelled; `FormatTime` prints ASCII digits.
- Java `int` width: counts are unbounded naturals; `FormatTime` gives the same text as Java for every non-negative `int`.
