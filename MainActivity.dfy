/**
 * The playback controller of MainActivity.java. The platform MediaPlayer is
 * abstracted as a `Player` record, the Handler as the number of posted
 * `updateProgress` callbacks, and the seek bar and the two time labels as plain
 * fields. Each listener body is a method of `MainActivity`; events that the
 * platform raises (a completed track, a posted tick coming due, the outcome of
 * opening a file) are method calls or parameters.
 */
module Activity {
  import opened Options
  import opened MusicItems
  import opened TimeFormat
  import opened Adapter

  /** The delay, in milliseconds, with which a progress tick re-posts itself. */
  const ProgressIntervalMs := 1000

  /** The value a seek bar starts with as its maximum before any `setMax`. */
  const DefaultSeekMax := 100

  /**
   * A MediaPlayer as far as this controller observes it: whether a source was
   * opened and prepared, whether it plays, its looping flag, position and
   * duration in milliseconds, and whether it has played to the end of its
   * track (the platform's "playback completed" state).
   */
  datatype Player = Player(prepared: bool, playing: bool, looping: bool, position: nat, duration: nat, completed: bool)

  /** What `new MediaPlayer()` gives: nothing opened, not playing, not looping. */
  const FreshPlayer := Player(false, false, false, 0, 0, false)

  /**
   * `start()`: a prepared player plays from where it is, except that one that
   * has played to the end starts again from the beginning; an unprepared one
   * does not move.
   */
  function Start(p: Player): Player {
    if !p.prepared then p
    else if p.completed then p.(playing := true, position := 0, completed := false)
    else p.(playing := true)
  }

  /**
   * How opening the clicked file goes: `setDataSource` rejects the path, or
   * `prepare` fails, or both succeed and the decoder reports the duration.
   */
  datatype PrepareOutcome = DataSourceFailed | PrepareFailed | Prepared(duration: nat)

  /** `i` is what `List.indexOf` returns for `item`: its first index, or -1 when absent. */
  ghost predicate IsFirstIndex(list: seq<MusicItem>, item: MusicItem, i: int) {
    if item in list then
      0 <= i < |list| && list[i] == item && forall j :: 0 <= j < i ==> list[j] != item
    else
      i == -1
  }

  /** `List.indexOf`: a scan from the front for the first equal element. */
  method IndexOf(list: seq<MusicItem>, item: MusicItem) returns (index: int)
    ensures IsFirstIndex(list, item, index)
  {
    index := 0;
    while index < |list|
      invariant 0 <= index <= |list|
      invariant forall j :: 0 <= j < index ==> list[j] != item
    {
      if list[index] == item {
        return;
      }
      index := index + 1;
    }
    index := -1;
  }

  /** `indexOf` has one answer. */
  lemma {:induction false} FirstIndexUnique(list: seq<MusicItem>, item: MusicItem, i: int, k: int)
    requires IsFirstIndex(list, item, i) && IsFirstIndex(list, item, k)
    ensures i == k
  {
  }

  ghost predicate Distinct(list: seq<MusicItem>) {
    forall i, j :: 0 <= i < j < |list| ==> list[i] != list[j]
  }

  /** In a list without repeated items, `indexOf` of the item at a row is that row. */
  lemma {:induction false} FirstIndexOfDistinct(list: seq<MusicItem>, row: int, i: int)
    requires Distinct(list) && 0 <= row < |list|
    requires IsFirstIndex(list, list[row], i)
    ensures i == row
  {
  }

  class MainActivity {
    var mediaPlayer: Option<Player>
    var currentMusic: Option<MusicItem>
    const adapter: MusicAdapter
    var seekProgress: nat
    var seekMax: nat
    var currentTime: string
    var totalTime: string
    /** How many `updateProgress` callbacks the Handler holds. */
    var pendingTicks: nat
    var isLooping: bool
    var isSeeking: bool
    /** How many players were created and how many released so far. */
    ghost var created: nat
    ghost var released: nat

    /**
     * The controller's invariant: only one player is alive (every player
     * created, except the current one, was released); ticks are posted only
     * while a player exists; a playing or finished player was prepared, and a
     * finished one does not play; and at most one
     * tick is posted during a drag, at most two otherwise.
     */
    ghost predicate Valid()
      reads this
    {
      && created == released + (if mediaPlayer.Some? then 1 else 0)
      && (pendingTicks > 0 ==> mediaPlayer.Some?)
      && (mediaPlayer.Some? && mediaPlayer.value.playing ==> mediaPlayer.value.prepared)
      && (mediaPlayer.Some? && mediaPlayer.value.completed ==> mediaPlayer.value.prepared && !mediaPlayer.value.playing)
      && pendingTicks <= (if isSeeking then 1 else 2)
    }

    /** The state after `onCreate`, with `musicList` standing for the scanned tracks. */
    constructor (musicList: seq<MusicItem>)
      ensures Valid() && fresh(adapter)
      ensures adapter.musicList == musicList
      ensures adapter.selectedPosition == NoSelection && adapter.notifications == []
      ensures mediaPlayer == None && currentMusic == None
      ensures pendingTicks == 0 && !isLooping && !isSeeking
      ensures seekProgress == 0 && seekMax == DefaultSeekMax
      ensures created == 0 && released == 0
    {
      adapter := new MusicAdapter(musicList);
      mediaPlayer := None;
      currentMusic := None;
      seekProgress := 0;
      seekMax := DefaultSeekMax;
      currentTime := "00:00";
      totalTime := "00:00";
      pendingTicks := 0;
      isLooping := false;
      isSeeking := false;
      created := 0;
      released := 0;
    }

    /**
     * `stopMusic`: without a player nothing changes, so a second call after a
     * first is a no-op; with one, the player is stopped and released, the
     * pending tick removed, the bar set to 0 and the label to "00:00". The
     * current track, the loop flag and the bar's maximum are kept.
     */
    method StopMusic()
      requires Valid()
      modifies this`mediaPlayer, this`released, this`pendingTicks, this`seekProgress, this`currentTime
      ensures Valid()
      ensures mediaPlayer == None && pendingTicks == 0
      ensures old(mediaPlayer) == None ==> unchanged(this)
      ensures old(mediaPlayer) != None ==>
        && released == old(released) + 1
        && seekProgress == 0 && currentTime == "00:00"
    {
      if mediaPlayer.Some? {
        mediaPlayer := None;
        released := released + 1;
        pendingTicks := 0;
        seekProgress := 0;
        currentTime := "00:00";
      }
    }

    /**
     * `playMusic`: the previous player is released before a new one is
     * created. If opening or preparing the file fails, the new unprepared
     * player stays assigned, nothing is posted and the current track is kept.
     * Otherwise the player plays from 0 (not looping, whatever `isLooping`
     * says), `item` becomes the current track, the list selects the first row
     * holding it, the bar's maximum and the total label take the duration, and
     * one tick is posted.
     */
    method PlayMusic(item: MusicItem, outcome: PrepareOutcome)
      requires Valid()
      modifies this, adapter
      ensures Valid()
      ensures created == old(created) + 1
      ensures released == old(released) + (if old(mediaPlayer).Some? then 1 else 0)
      ensures isLooping == old(isLooping) && isSeeking == old(isSeeking)
      ensures seekProgress == (if old(mediaPlayer).Some? then 0 else old(seekProgress))
      ensures currentTime == (if old(mediaPlayer).Some? then "00:00" else old(currentTime))
      ensures outcome.Prepared? ==>
        && mediaPlayer == Some(Player(true, true, false, 0, outcome.duration, false))
        && currentMusic == Some(item)
        && IsFirstIndex(adapter.musicList, item, adapter.selectedPosition)
        && adapter.notifications == old(adapter.notifications) + [DataSetChanged]
        && seekMax == outcome.duration && totalTime == FormatTime(outcome.duration)
        && pendingTicks == 1
    ensures !outcome.Prepared? ==>
        && mediaPlayer == Some(FreshPlayer)
        && currentMusic == old(currentMusic)
        && unchanged(adapter)
        && seekMax == old(seekMax) && totalTime == old(totalTime)
        && pendingTicks == 0
    {
      StopMusic();
      mediaPlayer := Some(FreshPlayer);
      created := created + 1;
      if outcome.Prepared? {
        var duration := outcome.duration;
        mediaPlayer := Some(Start(Player(true, false, false, 0, duration, false)));
        currentMusic := Some(item);
        var position := IndexOf(adapter.musicList, item);
        adapter.SetSelectedPosition(position);
        seekMax := duration;
        totalTime := FormatTime(duration);
        pendingTicks := pendingTicks + 1;
      }
    }

    /**
     * A click on the row at `position`: the adapter updates the selection and
     * redraws the old and new rows, then the listener plays that row's track.
     * On success the selection is moved again, to the track's first row, which
     * is the clicked row whenever the list has no repeated items.
     */
    method OnItemClick(position: int, outcome: PrepareOutcome)
      requires Valid() && 0 <= position < |adapter.musicList|
      modifies this, adapter
      ensures Valid()
      ensures created == old(created) + 1
      ensures released == old(released) + (if old(mediaPlayer).Some? then 1 else 0)
      ensures isLooping == old(isLooping) && isSeeking == old(isSeeking)
      ensures seekProgress == (if old(mediaPlayer).Some? then 0 else old(seekProgress))
      ensures currentTime == (if old(mediaPlayer).Some? then "00:00" else old(currentTime))
      ensures outcome.Prepared? ==>
        && mediaPlayer == Some(Player(true, true, false, 0, outcome.duration, false))
        && currentMusic == Some(adapter.musicList[position])
        && IsFirstIndex(adapter.musicList, adapter.musicList[position], adapter.selectedPosition)
        && seekMax == outcome.duration && totalTime == FormatTime(outcome.duration)
        && pendingTicks == 1
      ensures !outcome.Prepared? ==>
        && mediaPlayer == Some(FreshPlayer) && currentMusic == old(currentMusic)
        && seekMax == old(seekMax) && totalTime == old(totalTime)
        && pendingTicks == 0
      ensures adapter.notifications
        == old(adapter.notifications)
           + ClickNotifications(old(adapter.selectedPosition), position)
           + (if outcome.Prepared? then [DataSetChanged] else [])
      ensures !outcome.Prepared? ==> adapter.selectedPosition == position
      ensures outcome.Prepared? && Distinct(adapter.musicList) ==> adapter.selectedPosition == position
    {
      var item := adapter.OnRowClick(position);
      PlayMusic(item, outcome);
      if outcome.Prepared? && Distinct(adapter.musicList) {
        FirstIndexOfDistinct(adapter.musicList, position, adapter.selectedPosition);
      }
    }

    /**
     * The play button: only an existing player that is not playing is
     * started, and it resumes where it stands unless it had played to the
     * end, in which case it restarts from 0; no tick is posted.
     */
    method OnPlayClick()
      requires Valid()
      modifies this`mediaPlayer
      ensures Valid()
      ensures old(mediaPlayer) == None ==> mediaPlayer == None
      ensures old(mediaPlayer).Some? ==>
        var was := old(mediaPlayer).value;
        var started := !was.playing && was.prepared;
        && mediaPlayer.Some?
        && mediaPlayer.value.playing == (was.playing || was.prepared)
        && mediaPlayer.value.position == (if started && was.completed then 0 else was.position)
        && mediaPlayer.value.completed == (was.completed && !started)
        && mediaPlayer.value.prepared == was.prepared
        && mediaPlayer.value.looping == was.looping
        && mediaPlayer.value.duration == was.duration
    {
      if mediaPlayer.Some? && !mediaPlayer.value.playing {
        mediaPlayer := Some(Start(mediaPlayer.value));
      }
    }

    /** The pause button: only a playing player is paused; position and ticks stay as they are. */
    method OnPauseClick()
      requires Valid()
      modifies this`mediaPlayer
      ensures Valid()
      ensures old(mediaPlayer) == None ==> mediaPlayer == None
      ensures old(mediaPlayer).Some? ==>
        mediaPlayer == Some(old(mediaPlayer).value.(playing := false))
    {
      if mediaPlayer.Some? && mediaPlayer.value.playing {
        mediaPlayer := Some(mediaPlayer.value.(playing := false));
      }
    }

    /** The stop button: `stopMusic`, then the list selection is cleared to -1. */
    method OnStopClick()
      requires Valid()
      modifies this, adapter
      ensures Valid()
      ensures mediaPlayer == None && pendingTicks == 0
      ensures currentMusic == old(currentMusic) && isLooping == old(isLooping)
      ensures isSeeking == old(isSeeking) && seekMax == old(seekMax) && totalTime == old(totalTime)
      ensures old(mediaPlayer).None? ==> seekProgress == old(seekProgress) && currentTime == old(currentTime)
      ensures created == old(created)
      ensures released == old(released) + (if old(mediaPlayer).Some? then 1 else 0)
      ensures old(mediaPlayer).Some? ==> seekProgress == 0 && currentTime == "00:00"
      ensures adapter.selectedPosition == NoSelection
      ensures adapter.notifications == old(adapter.notifications) + [DataSetChanged]
    {
      StopMusic();
      adapter.SetSelectedPosition(NoSelection);
    }

    /** The loop button: flips `isLooping` and hands the new value to the current player, if any. */
    method OnLoopClick()
      requires Valid()
      modifies this`isLooping, this`mediaPlayer
      ensures Valid()
      ensures isLooping == !old(isLooping)
      ensures old(mediaPlayer) == None ==> mediaPlayer == None
      ensures old(mediaPlayer).Some? ==>
        mediaPlayer == Some(old(mediaPlayer).value.(looping := isLooping))
    {
      isLooping := !isLooping;
      if mediaPlayer.Some? {
        mediaPlayer := Some(mediaPlayer.value.(looping := isLooping));
      }
    }

    /**
     * The seek bar reports a new value: the bar holds it, and the time label
     * shows it only when the user moved the thumb.
     */
    method OnProgressChanged(progress: nat, fromUser: bool)
      requires Valid()
      modifies this`seekProgress, this`currentTime
      ensures Valid()
      ensures seekProgress == progress
      ensures currentTime == if fromUser then FormatTime(progress) else old(currentTime)
    {
      seekProgress := progress;
      if fromUser {
        currentTime := FormatTime(progress);
      }
    }

    /** A drag starts: the controller is seeking and every posted tick is removed. */
    method OnStartTrackingTouch()
      requires Valid()
      modifies this`isSeeking, this`pendingTicks
      ensures Valid()
      ensures isSeeking && pendingTicks == 0
    {
      isSeeking := true;
      pendingTicks := 0;
    }

    /**
     * A drag ends: seeking stops; with a player, it is moved to the bar's value
     * as it stands, not clamped to the duration (a finished player then plays
     * from there when started, not from 0), and a tick is posted.
     */
    method OnStopTrackingTouch()
      requires Valid() && isSeeking
      modifies this`isSeeking, this`mediaPlayer, this`pendingTicks
      ensures Valid()
      ensures !isSeeking
      ensures old(mediaPlayer) == None ==> mediaPlayer == None && pendingTicks == old(pendingTicks)
      ensures old(mediaPlayer).Some? ==>
        && mediaPlayer == Some(old(mediaPlayer).value.(position := seekProgress, completed := false))
        && pendingTicks == old(pendingTicks) + 1
    {
      isSeeking := false;
      if mediaPlayer.Some? {
        mediaPlayer := Some(mediaPlayer.value.(position := seekProgress, completed := false));
        pendingTicks := pendingTicks + 1;
      }
    }

    /** Whether a running tick reports the position and posts itself again. */
    predicate TickContinues()
      reads this
    {
      mediaPlayer.Some? && mediaPlayer.value.playing && !isSeeking
    }

    /**
     * A posted `updateProgress` comes due: it leaves the Handler; while a
     * player plays and no drag is on, it shows the position on the bar and
     * the label and posts itself again, due `ProgressIntervalMs` later;
     * otherwise the chain ends here.
     */
    method UpdateProgress()
      requires Valid() && pendingTicks > 0
      modifies this`pendingTicks, this`seekProgress, this`currentTime
      ensures Valid()
      ensures TickContinues() ==>
        && pendingTicks == old(pendingTicks)
        && seekProgress == mediaPlayer.value.position
        && currentTime == FormatTime(mediaPlayer.value.position)
    ensures !TickContinues() ==>
        && pendingTicks == old(pendingTicks) - 1
        && seekProgress == old(seekProgress) && currentTime == old(currentTime)
    {
      pendingTicks := pendingTicks - 1;
      if mediaPlayer.Some? && mediaPlayer.value.playing && !isSeeking {
        var current := mediaPlayer.value.position;
        seekProgress := current;
        currentTime := FormatTime(current);
        pendingTicks := pendingTicks + 1;
      }
    }

    /**
     * The completion listener runs: the listener is attached only to a player
     * that was prepared and started, and the platform calls it at the end of
     * the track and also after a playback error, since no error listener is
     * installed, so the player may be paused or looping at that moment. The
     * player stops playing and counts as finished; then, unless `isLooping`
     * is set, `stopMusic` runs. With `isLooping` set, the finished player
     * simply stays, and the play button restarts it from the beginning.
     */
    method OnCompletion()
      requires Valid()
      requires mediaPlayer.Some? && mediaPlayer.value.prepared
      modifies this`mediaPlayer, this`released, this`pendingTicks, this`seekProgress, this`currentTime
      ensures Valid()
      ensures isLooping ==>
        && mediaPlayer == Some(old(mediaPlayer).value.(playing := false, completed := true))
        && pendingTicks == old(pendingTicks)
        && released == old(released)
        && seekProgress == old(seekProgress) && currentTime == old(currentTime)
    ensures !isLooping ==>
        && mediaPlayer == None && pendingTicks == 0
        && released == old(released) + 1
        && seekProgress == 0 && currentTime == "00:00"
    {
      mediaPlayer := Some(mediaPlayer.value.(playing := false, completed := true));
      if !isLooping {
        StopMusic();
      }
    }
  }

  /**
   * A caller's view: three tracks, the second clicked and opened, paused and
   * stopped twice. Only the contracts above are used.
   */
  method PlayPauseStopSession(a: MusicItem, b: MusicItem, c: MusicItem)
    requires a != b && b != c && a != c
  {
    var activity := new MainActivity([a, b, c]);
    activity.OnItemClick(1, Prepared(200000));
    assert activity.currentMusic == Some(b);
    assert activity.mediaPlayer == Some(Player(true, true, false, 0, 200000, false));
    assert activity.adapter.selectedPosition == 1;
    assert activity.adapter.notifications == [ItemChanged(-1), ItemChanged(1), DataSetChanged];
    activity.OnPauseClick();
    assert activity.mediaPlayer == Some(Player(true, false, false, 0, 200000, false));
    activity.UpdateProgress();
    assert activity.pendingTicks == 0;
    activity.OnStopClick();
    assert activity.mediaPlayer == None && activity.seekProgress == 0;
    assert activity.created == activity.released == 1;
    activity.StopMusic();
    assert activity.mediaPlayer == None && activity.seekProgress == 0 && activity.currentTime == "00:00";
  }

  /**
   * A caller's view: with the loop button pressed before a track is opened,
   * the new player does not loop, its completion leaves it finished, and the
   * play button starts it again from the beginning.
   */
  method FinishedTrackRestartsSession(a: MusicItem)
  {
    var activity := new MainActivity([a]);
    activity.OnLoopClick();
    activity.OnItemClick(0, Prepared(200000));
    assert activity.isLooping && !activity.mediaPlayer.value.looping;
    activity.OnStartTrackingTouch();
    activity.OnProgressChanged(150000, true);
    activity.OnStopTrackingTouch();
    assert activity.mediaPlayer.value.position == 150000;
    activity.OnCompletion();
    assert activity.mediaPlayer.Some? && activity.mediaPlayer.value.completed;
    activity.OnPlayClick();
    assert activity.mediaPlayer.value.playing && activity.mediaPlayer.value.position == 0;
    activity.UpdateProgress();
    assert activity.currentTime == FormatTime(0);
  }
}
