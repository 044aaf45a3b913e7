/** The per-session history of past days that feeds the bar chart
    (app.py:14-24). Dates are day numbers: `today - 1` is yesterday. */
module History {

  /** One chart row: the date, the completion rate (달성률) and the
      mood score (기분). */
  datatype DayRecord = DayRecord(date: int, rate: int, mood: int)

  /** How many prior days the demo history holds. */
  const SeedDays: nat := 6

  /** The values `random.randint(20, 100)` and `random.randint(3, 9)`
      returned, one pair per seeded day, oldest day first. */
  predicate SeedDraws(rates: seq<int>, moods: seq<int>)
  {
    && |rates| == SeedDays && |moods| == SeedDays
    && (forall k :: 0 <= k < SeedDays ==> 20 <= rates[k] <= 100)
    && (forall k :: 0 <= k < SeedDays ==> 3 <= moods[k] <= 9)
  }

  /** The seeded history: day `today - 6 + k` carries the k-th draws. */
  function SeedRecords(today: int, rates: seq<int>, moods: seq<int>): seq<DayRecord>
    requires SeedDraws(rates, moods)
  {
    seq(SeedDays, k requires 0 <= k < SeedDays => DayRecord(today - SeedDays + k, rates[k], moods[k]))
  }

  /** Records strictly ascending by date. */
  predicate Chronological(records: seq<DayRecord>)
  {
    forall i, j :: 0 <= i < j < |records| ==> records[i].date < records[j].date
  }

  /** The seed is six records, one per day from six days ago to
      yesterday, oldest first, with values in the ranges drawn. */
  lemma SeedRecordsShape(today: int, rates: seq<int>, moods: seq<int>)
    requires SeedDraws(rates, moods)
    ensures var h := SeedRecords(today, rates, moods);
      && |h| == SeedDays
      && Chronological(h)
      && h[0].date == today - SeedDays && h[SeedDays - 1].date == today - 1
      && (forall r :: r in h ==> today - SeedDays <= r.date < today)
      && (forall r :: r in h ==> 20 <= r.rate <= 100 && 3 <= r.mood <= 9)
  {
  }

  /** The seeding loop (app.py:16-23): `i` runs 6, 5, ..., 1 and each
      pass appends the record for `today - i`. */
  method BuildSample(today: int, rates: seq<int>, moods: seq<int>) returns (sample: seq<DayRecord>)
    requires SeedDraws(rates, moods)
    ensures sample == SeedRecords(today, rates, moods)
  {
    sample := [];
    var i := SeedDays;
    while i > 0
      invariant 0 <= i <= SeedDays
      invariant |sample| == SeedDays - i
      invariant forall k :: 0 <= k < |sample| ==>
        sample[k] == DayRecord(today - SeedDays + k, rates[k], moods[k])
    {
      sample := sample + [DayRecord(today - i, rates[SeedDays - i], moods[SeedDays - i])];
      i := i - 1;
    }
  }
}
