/** The budget progress ring of src/components/ProgressRing.jsx: the
    percentage of the limit that has been spent, and the colour band it falls
    in. JavaScript numbers are modelled as exact reals for the percentage; the
    spent amount and the limit are integers. */
module ProgressRing {
  import opened Wrappers

  /** The three severity bands shared by the ring and the dashboard's status text. */
  datatype Band = OnTrack | Warning | Over

  const Red: string := "#ef4444"
  const Yellow: string := "#eab308"
  const Green: string := "#10b981"

  /** `limit ? (spent / limit) * 100 : 0`. A missing limit and a zero limit are
      both falsy, so neither is ever divided by. */
  function Percentage(spent: int, limit: Option<int>): (p: real)
    ensures (limit == None || limit == Some(0)) ==> p == 0.0
    ensures limit.Some? && limit.value != 0 ==> p * (limit.value as real) == (spent as real) * 100.0
  {
    if limit.Some? && limit.value != 0 then (spent as real / limit.value as real) * 100.0 else 0.0
  }

  /** The band a percentage falls in: over 100, over 80 up to 100, 80 or less. */
  function BandOf(p: real): Band
  {
    if p > 100.0 then Over else if p > 80.0 then Warning else OnTrack
  }

  /** Orders the bands by severity. */
  function Rank(b: Band): nat
  {
    match b
    case OnTrack => 0
    case Warning => 1
    case Over => 2
  }

  /** The ring's stroke colour, chosen by the source's nested conditional. */
  function RingColor(p: real): (c: string)
    ensures c == Red <==> BandOf(p) == Over
    ensures c == Yellow <==> BandOf(p) == Warning
    ensures c == Green <==> BandOf(p) == OnTrack
  {
    if p > 100.0 then Red else if p > 80.0 then Yellow else Green
  }

  /** With no limit, a zero limit or nothing spent, the ring is green. */
  lemma NoLimitOrNoSpendingIsGreen(spent: int, limit: Option<int>)
    requires limit == None || limit == Some(0) || spent == 0
    ensures RingColor(Percentage(spent, limit)) == Green
  {
    var p := Percentage(spent, limit);
    if limit.Some? && limit.value != 0 {
      assert p * (limit.value as real) == 0.0;
      assert p == 0.0;
    }
  }

  /** `x / l > y` exactly when `x > y * l`, for a positive `l`. */
  lemma DivGreater(x: real, l: real, y: real)
    requires l > 0.0
    ensures x / l > y <==> x > y * l
  {
    var q := x / l;
    assert q * l == x;
    if q > y {
      assert (q - y) * l > 0.0;
    } else {
      assert (y - q) * l >= 0.0;
    }
  }

  /** With a positive limit the bands are integer comparisons: over budget
      exactly when more than the limit is spent, and out of the green band
      exactly when five times the spending exceeds four times the limit. */
  lemma {:induction false} BandsByInteger(spent: int, limit: int)
    requires limit > 0
    ensures BandOf(Percentage(spent, Some(limit))) == Over <==> spent > limit
    ensures BandOf(Percentage(spent, Some(limit))) != OnTrack <==> 5 * spent > 4 * limit
  {
    var s, l := spent as real, limit as real;
    assert Percentage(spent, Some(limit)) == (s / l) * 100.0;
    DivGreater(s, l, 1.0);
    DivGreater(s, l, 0.8);
  }

  /** Spending more never moves the ring to a less severe band. */
  lemma {:induction false} SeverityMonotone(spent1: int, spent2: int, limit: int)
    requires limit > 0 && spent1 <= spent2
    ensures Rank(BandOf(Percentage(spent1, Some(limit)))) <= Rank(BandOf(Percentage(spent2, Some(limit))))
  {
    BandsByInteger(spent1, limit);
    BandsByInteger(spent2, limit);
  }
}
