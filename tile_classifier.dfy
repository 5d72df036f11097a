/** `getTileType`: the decision list that turns a day record into the category of its map tile. */
module TileClassifier {
  import opened Wrappers
  import opened Records

  datatype TileType = Empty | Poor | Average | Good | Excellent

  /** A ranking of the categories, worst to best, used to state that a sad day is never above `poor`. */
  function Rank(t: TileType): nat {
    match t
    case Empty => 0
    case Poor => 1
    case Average => 2
    case Good => 3
    case Excellent => 4
  }

  /**
   * First match wins: no mood or no tasks; happy and all done; happy and at least
   * half done; neutral and at least half done; everything else. The completion-rate
   * tests `rate === 1` and `rate >= 0.5` are stated on the integer counts.
   */
  function Classify(d: DayRecord): (r: TileType)
    ensures r == Empty <==> d.mood == None || d.tasks == []
    ensures r == Excellent <==> d.mood == Some(Happy) && d.tasks != [] && AllCompleted(d.tasks)
    ensures r == Good <==>
      d.mood == Some(Happy) && d.tasks != [] && !AllCompleted(d.tasks) && 2 * CompletedCount(d.tasks) >= |d.tasks|
    ensures r == Average <==>
      d.mood == Some(Neutral) && d.tasks != [] && 2 * CompletedCount(d.tasks) >= |d.tasks|
    ensures r == Poor <==>
      d.mood.Some? && d.tasks != [] && (d.mood == Some(Sad) || 2 * CompletedCount(d.tasks) < |d.tasks|)
    ensures d.mood == Some(Sad) ==> Rank(r) <= Rank(Poor)
  {
    CompletedCountExtremes(d.tasks);
    if d.mood.None? || |d.tasks| == 0 then Empty
    else
      var completed := CompletedCount(d.tasks);
      var total := |d.tasks|;
      match d.mood.value
      case Happy => if completed == total then Excellent else if 2 * completed >= total then Good else Poor
      case Neutral => if 2 * completed >= total then Average else Poor
      case Sad => Poor
  }

  /** A happy day with tasks is `good` or better exactly when at least half of its positions hold a finished task. */
  lemma HappyHalfDoneIsGoodOrBetter(d: DayRecord)
    requires d.mood == Some(Happy) && d.tasks != []
    ensures Rank(Classify(d)) >= Rank(Good) <==> 2 * |CompletedIndices(d.tasks)| >= |d.tasks|
  {
    CompletedCountIsCardinality(d.tasks);
  }

  /** Concrete days of each category, including a sad day with every task done. */
  lemma ClassifyExamples(a: Task, b: Task)
    requires a.completed && !b.completed
    ensures Classify(DayRecord(None, [a])) == Empty
    ensures Classify(DayRecord(Some(Happy), [])) == Empty
    ensures Classify(DayRecord(Some(Happy), [a, a])) == Excellent
    ensures Classify(DayRecord(Some(Happy), [a, b])) == Good
    ensures Classify(DayRecord(Some(Neutral), [a, b])) == Average
    ensures Classify(DayRecord(Some(Sad), [a, a])) == Poor
    ensures Classify(DayRecord(Some(Happy), [b, b, a])) == Poor
  {
    assert AllCompleted([a, a]);
    assert [a, b][1] == b;
    assert [a][..0] == [] && [b][..0] == [];
    assert [a, b][..1] == [a] && [b, b][..1] == [b] && [b, b, a][..2] == [b, b];
    assert CompletedCount([a]) == 1 && CompletedCount([b]) == 0;
    assert CompletedCount([a, b]) == 1 && CompletedCount([b, b]) == 0;
    assert CompletedCount([b, b, a]) == 1;
  }
}
