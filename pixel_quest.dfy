/**
 * The `PixelQuest` controller: the day-record store with its lazily created
 * records, the selection state, and the commands that edit the selected day.
 * Persistence is the ghost field `saved`, the blob last written to storage.
 */
module PixelQuestApp {
  import opened Wrappers
  import opened Text
  import opened Records
  import opened TileClassifier
  import opened Stats
  import opened DateUtil

  datatype User = User(name: string, avatarId: int)

  /** `this.data`, the state that is persisted as a whole. Days are keyed by day number. */
  datatype AppData = AppData(user: User, days: map<int, DayRecord>)

  /** What `loadData` starts from when storage holds nothing. */
  const DefaultData: AppData := AppData(User("Игрок", 1), map[])

  /** One tile of the week map, before it is drawn. */
  datatype Tile = Tile(date: int, kind: TileType, isToday: bool, isSelected: bool)

  /** The record a date reads as: the stored one, or the empty record a first read would create. */
  function DayOf(days: map<int, DayRecord>, date: int): DayRecord {
    if date in days then days[date] else EmptyDay
  }

  /** `after` is `before` once every date in `[lo, hi)` has been read: missing dates hold an empty record, nothing else changed. */
  ghost predicate Materialized(before: map<int, DayRecord>, after: map<int, DayRecord>, lo: int, hi: int) {
    && (forall k :: k in after <==> k in before || lo <= k < hi)
    && (forall k :: k in after ==> after[k] == DayOf(before, k))
  }

  /** The store after one mutating read of `date`. */
  function Touched(days: map<int, DayRecord>, date: int): (r: map<int, DayRecord>)
    ensures Materialized(days, r, date, date + 1)
    ensures date in days ==> r == days
    ensures DayOf(r, date) == DayOf(days, date)
  {
    if date in days then days else days[date := EmptyDay]
  }

  /** Reading the next date extends a materialisation; what earlier reads created is kept. */
  lemma MaterializedStep(before: map<int, DayRecord>, mid: map<int, DayRecord>, lo: int, hi: int)
    requires lo <= hi && Materialized(before, mid, lo, hi)
    ensures Materialized(before, Touched(mid, hi), lo, hi + 1)
    ensures DayOf(mid, hi) == DayOf(before, hi)
  {
  }

  /** A task as `addTask` creates it: its text is non-empty and neither starts nor ends with white space. */
  predicate WellFormedTask(t: Task) {
    t.text != [] && !IsJsWhitespace(t.text[0]) && !IsJsWhitespace(t.text[|t.text| - 1])
  }

  predicate WellFormedTasks(tasks: seq<Task>) {
    forall j :: 0 <= j < |tasks| ==> WellFormedTask(tasks[j])
  }

  /** Every stored task is well formed. Commands keep this, though a loaded blob need not satisfy it. */
  predicate WellFormed(days: map<int, DayRecord>) {
    forall k :: k in days ==> WellFormedTasks(days[k].tasks)
  }

  /** Appending a task whose text is a non-blank trimmed input keeps a list well formed. */
  lemma AppendedKeepsWellFormed(tasks: seq<Task>, id: int, input: string)
    requires WellFormedTasks(tasks) && Trim(input) != []
    ensures WellFormedTasks(Appended(tasks, id, Trim(input)))
  {
  }

  /** Toggling keeps every text, so it keeps a list well formed. */
  lemma ToggledKeepsWellFormed(tasks: seq<Task>, i: int)
    requires WellFormedTasks(tasks) && 0 <= i < |tasks|
    ensures WellFormedTasks(Toggled(tasks, i))
  {
  }

  /** Deleting keeps the remaining tasks, so it keeps a list well formed. */
  lemma RemovedKeepsWellFormed(tasks: seq<Task>, i: int)
    requires WellFormedTasks(tasks) && 0 <= i < |tasks|
    ensures WellFormedTasks(Removed(tasks, i))
  {
  }

  /** Storing a well-formed record keeps the store well formed. */
  lemma StoreKeepsWellFormed(days: map<int, DayRecord>, date: int, day: DayRecord)
    requires WellFormed(days) && WellFormedTasks(day.tasks)
    ensures WellFormed(days[date := day])
  {
  }

  class PixelQuest {
    var data: AppData
    var currentWeek: int
    var selectedDate: int
    /** The blob in storage, `None` while nothing has been written. */
    ghost var saved: Option<AppData>

    /** `loadData` on the parsed stored blob; the week offset and the selection start at this week and today. */
    constructor (stored: Option<AppData>, today: int)
      ensures data == stored.GetOr(DefaultData)
      ensures stored.None? ==> WellFormed(data.days)
      ensures currentWeek == 0 && selectedDate == today
      ensures saved == stored
    {
      data := stored.GetOr(DefaultData);
      currentWeek := 0;
      selectedDate := today;
      saved := stored;
    }

    /** `saveData`: the whole state is written through to storage. */
    method SaveData()
      modifies this`saved
      ensures saved == Some(data)
    {
      saved := Some(data);
    }

    /** `getDayData`: a read that creates and stores an empty record for a date seen for the first time. */
    method GetDayData(date: int) returns (r: DayRecord)
      modifies this`data
      ensures r == DayOf(old(data.days), date)
      ensures data == old(data).(days := Touched(old(data.days), date))
      ensures old(WellFormed(data.days)) ==> WellFormed(data.days)
    {
      if date !in data.days {
        data := data.(days := data.days[date := EmptyDay]);
      }
      r := data.days[date];
    }

    /** The mood buttons: the selected day's mood is overwritten, then saved. */
    method SetMood(mood: Mood)
      modifies this`data, this`saved
      ensures var before := DayOf(old(data.days), selectedDate);
        data == old(data).(days := old(data.days)[selectedDate := before.(mood := Some(mood))])
      ensures saved == Some(data)
      ensures old(WellFormed(data.days)) ==> WellFormed(data.days)
    {
      var day := GetDayData(selectedDate);
      if WellFormed(data.days) {
        StoreKeepsWellFormed(data.days, selectedDate, day.(mood := Some(mood)));
      }
      data := data.(days := data.days[selectedDate := day.(mood := Some(mood))]);
      SaveData();
    }

    /** The avatar buttons: the parsed avatar number is stored as it is, then saved. */
    method SetAvatar(avatarId: int)
      modifies this`data, this`saved
      ensures data == old(data).(user := old(data.user).(avatarId := avatarId))
      ensures saved == Some(data)
    {
      data := data.(user := data.user.(avatarId := avatarId));
      SaveData();
    }

    /** `addTask`: a non-blank input appends one unfinished task with the trimmed text and saves; a blank one does nothing at all. */
    method AddTask(input: string, id: int)
      modifies this`data, this`saved
      ensures Trim(input) == [] ==> data == old(data) && saved == old(saved)
      ensures Trim(input) != [] ==>
        var before := DayOf(old(data.days), selectedDate);
        && data == old(data).(days := old(data.days)[selectedDate := before.(tasks := Appended(before.tasks, id, Trim(input)))])
        && saved == Some(data)
      ensures old(WellFormed(data.days)) ==> WellFormed(data.days)
    {
      var text := Trim(input);
      if text != [] {
        var day := GetDayData(selectedDate);
        var updated := day.(tasks := Appended(day.tasks, id, text));
        if WellFormed(data.days) {
          AppendedKeepsWellFormed(day.tasks, id, input);
          StoreKeepsWellFormed(data.days, selectedDate, updated);
        }
        data := data.(days := data.days[selectedDate := updated]);
        SaveData();
      }
    }

    /**
     * `toggleTask`: the selected day is read first, so even an index with no task
     * leaves its (possibly new, empty) record in memory; only a real task is flipped and saved.
     */
    method ToggleTask(index: int)
      modifies this`data, this`saved
      ensures var before := DayOf(old(data.days), selectedDate);
        if 0 <= index < |before.tasks| then
          && data == old(data).(days := old(data.days)[selectedDate := before.(tasks := Toggled(before.tasks, index))])
          && saved == Some(data)
        else
          && data == old(data).(days := Touched(old(data.days), selectedDate))
          && saved == old(saved)
      ensures old(WellFormed(data.days)) ==> WellFormed(data.days)
    {
      var day := GetDayData(selectedDate);
      if 0 <= index < |day.tasks| {
        var updated := day.(tasks := Toggled(day.tasks, index));
        if WellFormed(data.days) {
          ToggledKeepsWellFormed(day.tasks, index);
          StoreKeepsWellFormed(data.days, selectedDate, updated);
        }
        data := data.(days := data.days[selectedDate := updated]);
        SaveData();
      }
    }

    /** `deleteTask`: like the toggle, but the task at the index is spliced out and the later ones move down. */
    method DeleteTask(index: int)
      modifies this`data, this`saved
      ensures var before := DayOf(old(data.days), selectedDate);
        if 0 <= index < |before.tasks| then
          && data == old(data).(days := old(data.days)[selectedDate := before.(tasks := Removed(before.tasks, index))])
          && saved == Some(data)
        else
          && data == old(data).(days := Touched(old(data.days), selectedDate))
          && saved == old(saved)
      ensures old(WellFormed(data.days)) ==> WellFormed(data.days)
    {
      var day := GetDayData(selectedDate);
      if 0 <= index < |day.tasks| {
        var updated := day.(tasks := Removed(day.tasks, index));
        if WellFormed(data.days) {
          RemovedKeepsWellFormed(day.tasks, index);
          StoreKeepsWellFormed(data.days, selectedDate, updated);
        }
        data := data.(days := data.days[selectedDate := updated]);
        SaveData();
      }
    }

    /** The previous-week button. */
    method PrevWeek()
      modifies this`currentWeek
      ensures currentWeek == old(currentWeek) - 1
    {
      currentWeek := currentWeek - 1;
    }

    /** The next-week button. */
    method NextWeek()
      modifies this`currentWeek
      ensures currentWeek == old(currentWeek) + 1
    {
      currentWeek := currentWeek + 1;
    }

    /** `selectDate`: clicking a tile selects its date. */
    method SelectDate(date: int)
      modifies this`selectedDate
      ensures selectedDate == date
    {
      selectedDate := date;
    }

    /** The numbers of `updateStats` for the selected day, which it reads through the mutating `getDayData`. */
    method UpdateStats() returns (s: Stats)
      modifies this`data
      ensures s == StatsOf(DayOf(old(data.days), selectedDate).tasks)
      ensures data == old(data).(days := Touched(old(data.days), selectedDate))
    {
      var day := GetDayData(selectedDate);
      s := StatsOf(day.tasks);
    }

    /**
     * What `renderMap` computes for the shown week before drawing: one tile per date,
     * classified from the record read through `getDayData`, so every shown day ends up stored in memory.
     */
    method WeekTiles(today: int) returns (tiles: seq<Tile>)
      modifies this`data
      ensures var start := WeekStart(today, currentWeek);
        && |tiles| == DaysPerWeek
        && (forall i :: 0 <= i < |tiles| ==>
              var date := start + i;
              tiles[i] == Tile(date, Classify(DayOf(old(data.days), date)), date == today, date == selectedDate))
        && data.user == old(data.user)
        && Materialized(old(data.days), data.days, start, start + DaysPerWeek)
    {
      var dates := WeekDates(today, currentWeek);
      ghost var start := dates[0];
      tiles := [];
      var i := 0;
      while i < |dates|
        invariant 0 <= i <= DaysPerWeek && |tiles| == i
        invariant forall j :: 0 <= j < i ==>
          tiles[j] == Tile(start + j, Classify(DayOf(old(data.days), start + j)), start + j == today, start + j == selectedDate)
        invariant data.user == old(data.user)
        invariant Materialized(old(data.days), data.days, start, start + i)
      {
        assert dates[i] == start + i;
        MaterializedStep(old(data.days), data.days, start, start + i);
        var day := GetDayData(dates[i]);
        tiles := tiles + [Tile(dates[i], Classify(day), dates[i] == today, dates[i] == selectedDate)];
        i := i + 1;
      }
    }
  }

  /** Toggling the same index twice leaves the tasks as they were; only the mutating read and the save remain. */
  method ToggleTwice(app: PixelQuest, index: int)
    modifies app`data, app`saved
    ensures app.data == old(app.data).(days := Touched(old(app.data.days), app.selectedDate))
    ensures 0 <= index < |DayOf(old(app.data.days), app.selectedDate).tasks| ==> app.saved == Some(app.data)
    ensures !(0 <= index < |DayOf(old(app.data.days), app.selectedDate).tasks|) ==> app.saved == old(app.saved)
  {
    app.ToggleTask(index);
    app.ToggleTask(index);
    var before := DayOf(old(app.data.days), app.selectedDate);
    if 0 <= index < |before.tasks| {
      ToggledTwice(before.tasks, index);
    }
  }

  /**
   * A happy day holding one finished task gets a second one: the panel then shows
   * one of two done at 50 percent, and the tile is `good`.
   */
  method AddSecondTaskScenario(date: int, first: Task, input: string, id: int) returns (s: Stats, tile: TileType)
    requires first.completed && Trim(input) != []
    ensures s == Stats(1, 2, 50)
    ensures tile == Good
  {
    var stored := AppData(DefaultData.user, map[date := DayRecord(Some(Happy), [first])]);
    var app := new PixelQuest(Some(stored), date);
    app.AddTask(input, id);
    ghost var tasks := [first, Task(id, Trim(input), false)];
    assert app.data.days[date] == DayRecord(Some(Happy), tasks);
    assert CompletedCount(tasks) == 1 by {
      assert tasks[..1] == [first];
      assert [first][..0] == [];
    }
    s := app.UpdateStats();
    var day := app.GetDayData(date);
    tile := Classify(day);
  }
}
