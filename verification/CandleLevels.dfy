/** What the pivot scan of core/candle_evidence.py finds, said without the scan. */
module CandleLevels {
  import opened RealMath
  import opened CandleEvidence

  lemma {:induction false} AtMostMembers(s: seq<real>, bound: real)
    ensures forall x :: x in AtMost(s, bound) <==> x in s && x <= bound
  {
    if s != [] { AtMostMembers(s[1..], bound); }
  }

  lemma {:induction false} AtLeastMembers(s: seq<real>, bound: real)
    ensures forall x :: x in AtLeast(s, bound) <==> x in s && x >= bound
  {
    if s != [] { AtLeastMembers(s[1..], bound); }
  }

  lemma {:induction false} ValidRowsMembers(rows: seq<Candle>)
    ensures forall c :: c in ValidRows(rows) <==> c in rows && Valid(c)
  {
    if rows != [] { ValidRowsMembers(rows[1..]); }
  }

  /** PivotLows lists exactly the lows of the pivots among the first n rows. */
  lemma {:induction false} PivotLowMembers(rows: seq<Candle>, n: nat, x: real)
    requires n <= |rows|
    ensures x in PivotLows(rows, n) <==> exists i :: 0 <= i < n && IsPivotLow(rows, i) && rows[i].low == x
  {
    if n > 0 {
      PivotLowMembers(rows, n - 1, x);
      assert x in PivotLows(rows, n) <==> x in PivotLows(rows, n - 1) || (IsPivotLow(rows, n - 1) && rows[n - 1].low == x);
    }
  }

  lemma {:induction false} PivotHighMembers(rows: seq<Candle>, n: nat, x: real)
    requires n <= |rows|
    ensures x in PivotHighs(rows, n) <==> exists i :: 0 <= i < n && IsPivotHigh(rows, i) && rows[i].high == x
  {
    if n > 0 {
      PivotHighMembers(rows, n - 1, x);
      assert x in PivotHighs(rows, n) <==> x in PivotHighs(rows, n - 1) || (IsPivotHigh(rows, n - 1) && rows[n - 1].high == x);
    }
  }

  /** x is the low of a pivot that does not lie above the close. */
  ghost predicate SupportCandidate(rows: seq<Candle>, close: real, x: real) {
    x <= close && exists i :: 0 <= i < |rows| && IsPivotLow(rows, i) && rows[i].low == x
  }

  ghost predicate ResistanceCandidate(rows: seq<Candle>, close: real, x: real) {
    x >= close && exists i :: 0 <= i < |rows| && IsPivotHigh(rows, i) && rows[i].high == x
  }

  /** The support is the highest pivot low not above the close, or the lowest low when there is none. */
  lemma SupportIsNearestPivot(rows: seq<Candle>, close: real)
    requires ValidRows(rows) != []
    ensures var s := SupportLevel(rows, close);
            if exists x :: SupportCandidate(rows, close, x)
            then SupportCandidate(rows, close, s) && forall x :: SupportCandidate(rows, close, x) ==> x <= s
            else (exists c :: c in rows && Valid(c) && c.low == s) && forall c :: c in rows && Valid(c) ==> s <= c.low
  {
    var below := AtMost(PivotLows(rows, |rows|), close);
    AtMostMembers(PivotLows(rows, |rows|), close);
    forall x ensures x in below <==> SupportCandidate(rows, close, x) { PivotLowMembers(rows, |rows|, x); }
    hide SupportCandidate;
    if below != [] {
      MaxOfBounds(below);
    } else {
      LowestLow(rows);
    }
  }

  /** The resistance is the lowest pivot high not below the close, or the highest high when there is none. */
  lemma ResistanceIsNearestPivot(rows: seq<Candle>, close: real)
    requires ValidRows(rows) != []
    ensures var r := ResistanceLevel(rows, close);
            if exists x :: ResistanceCandidate(rows, close, x)
            then ResistanceCandidate(rows, close, r) && forall x :: ResistanceCandidate(rows, close, x) ==> r <= x
            else (exists c :: c in rows && Valid(c) && c.high == r) && forall c :: c in rows && Valid(c) ==> c.high <= r
  {
    var above := AtLeast(PivotHighs(rows, |rows|), close);
    AtLeastMembers(PivotHighs(rows, |rows|), close);
    forall x ensures x in above <==> ResistanceCandidate(rows, close, x) { PivotHighMembers(rows, |rows|, x); }
    hide ResistanceCandidate;
    if above != [] {
      MinOfBounds(above);
    } else {
      HighestHigh(rows);
    }
  }

  lemma LowestLow(rows: seq<Candle>)
    requires ValidRows(rows) != []
    ensures var low := MinOf(Lows(ValidRows(rows)));
            (exists c :: c in rows && Valid(c) && c.low == low) && forall c :: c in rows && Valid(c) ==> low <= c.low
  {
    var valid := ValidRows(rows);
    ValidRowsMembers(rows);
    MinOfBounds(Lows(valid));
    var i :| 0 <= i < |valid| && Lows(valid)[i] == MinOf(Lows(valid));
    assert valid[i] in valid;
    forall c | c in rows && Valid(c) ensures MinOf(Lows(valid)) <= c.low {
      var j :| 0 <= j < |valid| && valid[j] == c;
      assert Lows(valid)[j] in Lows(valid);
    }
  }

  lemma HighestHigh(rows: seq<Candle>)
    requires ValidRows(rows) != []
    ensures var high := MaxOf(Highs(ValidRows(rows)));
            (exists c :: c in rows && Valid(c) && c.high == high) && forall c :: c in rows && Valid(c) ==> c.high <= high
  {
    var valid := ValidRows(rows);
    ValidRowsMembers(rows);
    MaxOfBounds(Highs(valid));
    var i :| 0 <= i < |valid| && Highs(valid)[i] == MaxOf(Highs(valid));
    assert valid[i] in valid;
    forall c | c in rows && Valid(c) ensures c.high <= MaxOf(Highs(valid)) {
      var j :| 0 <= j < |valid| && valid[j] == c;
      assert Highs(valid)[j] in Highs(valid);
    }
  }

  /** Both levels are prices of past rows, and they never cross. */
  lemma SupportBelowResistance(rows: seq<Candle>, close: real)
    requires ValidRows(rows) != []
    ensures SupportLevel(rows, close) <= ResistanceLevel(rows, close)
  {
    var s, r := SupportLevel(rows, close), ResistanceLevel(rows, close);
    SupportIsNearestPivot(rows, close);
    ResistanceIsNearestPivot(rows, close);
    LowestLow(rows);
    HighestHigh(rows);
    hide SupportLevel, ResistanceLevel, ValidRows;
    if exists x :: SupportCandidate(rows, close, x) {
      var i :| 0 <= i < |rows| && IsPivotLow(rows, i) && rows[i].low == s;
      assert rows[i] in rows && Valid(rows[i]);
    }
    if exists x :: ResistanceCandidate(rows, close, x) {
      var i :| 0 <= i < |rows| && IsPivotHigh(rows, i) && rows[i].high == r;
      assert rows[i] in rows && Valid(rows[i]);
    }
  }
}
