/**
  The literature sheet as the recommenders see it: one record per prior
  study, the four columns the engine reads, and the counting behind the
  "most frequent instrument" of a set of records.
*/
module Sheet {
  import opened Wrappers

  /** A sheet cell: empty cells are read as missing values. */
  datatype Cell = Missing | Text(value: string)

  /** One row of the sheet, restricted to the columns the engine reads:
      'Analiz Matriksi', 'Analiz Amacı (ICH Eşdeğeri)', 'Molekül Tipi' and
      'Kullanılan Enstrüman Kategorisi'. */
  datatype Record = Record(matrix: Cell, purpose: Cell, moleculeType: Cell, instrument: Cell)

  predicate IsFilled(r: Record)
  {
    r.matrix.Text? && r.purpose.Text? && r.moleculeType.Text? && r.instrument.Text?
  }

  /** Number of records whose instrument category is exactly `v`
      (a missing category is never counted). */
  function Count(rs: seq<Record>, v: string): (c: nat)
    ensures c <= |rs|
  {
    if rs == [] then 0
    else Count(rs[..|rs| - 1], v) + (if rs[|rs| - 1].instrument == Text(v) then 1 else 0)
  }

  lemma {:induction false} CountPositive(rs: seq<Record>, v: string)
    requires Count(rs, v) > 0
    ensures exists j :: 0 <= j < |rs| && rs[j].instrument == Text(v)
  {
    if rs[|rs| - 1].instrument != Text(v) {
      CountPositive(rs[..|rs| - 1], v);
      var j :| 0 <= j < |rs| - 1 && rs[..|rs| - 1][j].instrument == Text(v);
      assert rs[j] == rs[..|rs| - 1][j];
    }
  }

  /** `v` is a most frequent instrument category of `rs`: it occurs, and no
      value occurs more often. Ties are allowed; which tied value a table
      library reports is not fixed. */
  ghost predicate IsModal(rs: seq<Record>, v: string)
  {
    Count(rs, v) >= 1 && forall x :: Count(rs, x) <= Count(rs, v)
  }

  /** A value of maximal count among the categories of `rs[..i]`, scanning
      from position `i` on; `best` is the candidate found so far. */
  function ModalFrom(rs: seq<Record>, i: nat, best: Option<string>): (m: Option<string>)
    requires i <= |rs|
    requires best.None? <==> forall j :: 0 <= j < i ==> rs[j].instrument.Missing?
    requires best.Some? ==> Count(rs, best.value) >= 1
    requires best.Some? ==> forall j :: 0 <= j < i && rs[j].instrument.Text? ==>
      Count(rs, rs[j].instrument.value) <= Count(rs, best.value)
    ensures m.None? <==> forall j :: 0 <= j < |rs| ==> rs[j].instrument.Missing?
    ensures m.Some? ==> Count(rs, m.value) >= 1
    ensures m.Some? ==> forall j :: 0 <= j < |rs| && rs[j].instrument.Text? ==>
      Count(rs, rs[j].instrument.value) <= Count(rs, m.value)
    decreases |rs| - i
  {
    if i == |rs| then best
    else
      var next :=
        match rs[i].instrument
        case Missing => best
        case Text(v) =>
          if best.None? || Count(rs, best.value) < Count(rs, v) then
            CountOccurrence(rs, i); Some(v)
          else best;
      ModalFrom(rs, i + 1, next)
  }

  lemma CountOccurrence(rs: seq<Record>, i: nat)
    requires i < |rs| && rs[i].instrument.Text?
    ensures Count(rs, rs[i].instrument.value) >= 1
  {
    var v := rs[i].instrument.value;
    if i < |rs| - 1 {
      CountOccurrence(rs[..|rs| - 1], i);
      assert rs[..|rs| - 1][i] == rs[i];
    }
  }

  /** The most frequent instrument category of `rs`, or None when every
      category is missing (pandas' `mode()` drops missing values first). */
  function Modal(rs: seq<Record>): (m: Option<string>)
    ensures m.None? <==> forall r <- rs :: r.instrument.Missing?
    ensures m.Some? ==> IsModal(rs, m.value)
  {
    var m := ModalFrom(rs, 0, None);
    if m.Some? then
      assert forall x :: Count(rs, x) <= Count(rs, m.value) by {
        forall x | Count(rs, x) > Count(rs, m.value) ensures false {
          CountPositive(rs, x);
        }
      }
      m
    else m
  }

  /** The literature support for a category: how many of the `n` records
      name it, and which percentage of them that is. */
  datatype Support = Support(instrument: string, count: nat, percent: real)

  /** `count / n * 100`, computed exactly. */
  function Percent(count: nat, n: nat): real
    requires n > 0
  {
    (count as real) / (n as real) * 100.0
  }

  lemma PercentBounds(count: nat, n: nat)
    requires 1 <= count <= n
    ensures 0.0 < Percent(count, n) <= 100.0
  {
    var q := (count as real) / (n as real);
    assert q * (n as real) == count as real;
    assert q <= 1.0;
  }

  /** The modal category of a non-empty set of records and its support;
      None when no record names a category. */
  function LiteratureSupport(rs: seq<Record>): (r: Option<Support>)
    requires |rs| > 0
    ensures r.None? <==> forall x <- rs :: x.instrument.Missing?
    ensures r.Some? ==> IsModal(rs, r.value.instrument)
    ensures r.Some? ==> r.value.count == Count(rs, r.value.instrument)
    ensures r.Some? ==> 1 <= r.value.count <= |rs|
    ensures r.Some? ==> r.value.percent == Percent(r.value.count, |rs|)
    ensures r.Some? ==> 0.0 < r.value.percent <= 100.0
  {
    match Modal(rs)
    case None => None
    case Some(v) =>
      var c := Count(rs, v);
      PercentBounds(c, |rs|);
      Some(Support(v, c, Percent(c, |rs|)))
  }
}
