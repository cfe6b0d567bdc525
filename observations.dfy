/**
 * Station observations as the weather service returns them, and the
 * last-24-hours filter that both map components apply to a fetched list
 * before storing it.
 */
module Observations {
  import opened Wrappers
  import opened Seqs

  /** One station's reading. The temperature may be `null`. */
  datatype Observation = Observation(
    id: string,
    lat: real,
    long: real,
    temperature: Option<real>,
    datetime: string)

  /** The `Error` a failed fetch hands to `.catch`. */
  datatype FetchError = FetchError(message: string)

  /**
   * `datetime.replace(/-/g, '/')`: every '-' becomes '/', nothing else
   * changes.
   */
  function NormalizeDate(s: string): (r: string)
    ensures |r| == |s|
    ensures forall i :: 0 <= i < |s| ==> r[i] == (if s[i] == '-' then '/' else s[i])
    ensures '-' !in r
  {
    if s == [] then []
    else [if s[0] == '-' then '/' else s[0]] + NormalizeDate(s[1..])
  }

  /** Applying the rewrite twice is the same as applying it once. */
  lemma NormalizeDateIdempotent(s: string)
    ensures NormalizeDate(NormalizeDate(s)) == NormalizeDate(s)
  {
    var r := NormalizeDate(s);
    var rr := NormalizeDate(r);
    assert |rr| == |r|;
    forall i | 0 <= i < |r|
      ensures rr[i] == r[i]
    {
      assert r[i] != '-';
    }
  }

  /**
   * The filter's test: the row is kept when the instant parsed from its
   * normalised datetime lies strictly after the cutoff. `parse` stands for
   * `new Date(...).getTime()`; `None` is an Invalid Date, whose time is NaN,
   * and `cutoff < NaN` is false.
   */
  predicate IsRecent(d: Observation, cutoff: int, parse: string -> Option<int>) {
    match parse(NormalizeDate(d.datetime))
    case Some(time) => cutoff < time
    case None => false
  }

  /**
   * `rows.filter(d => last24hrs < time(d))`: a row is kept exactly when it
   * is in the input and recent.
   */
  function Recent(rows: seq<Observation>, cutoff: int, parse: string -> Option<int>): (kept: seq<Observation>)
    ensures |kept| <= |rows|
    ensures forall d :: d in kept <==> d in rows && IsRecent(d, cutoff, parse)
  {
    FilterMembers(rows, d => IsRecent(d, cutoff, parse));
    Filter(rows, d => IsRecent(d, cutoff, parse))
  }

  /**
   * The filter distributes over concatenation, so kept rows come out in
   * their input order.
   */
  lemma RecentAppend(a: seq<Observation>, b: seq<Observation>, cutoff: int, parse: string -> Option<int>)
    ensures Recent(a + b, cutoff, parse) == Recent(a, cutoff, parse) + Recent(b, cutoff, parse)
  {
    FilterAppend(a, b, d => IsRecent(d, cutoff, parse));
  }

  /** When every row is recent the filter returns its input unchanged. */
  lemma RecentKeepsAllRecent(rows: seq<Observation>, cutoff: int, parse: string -> Option<int>)
    requires forall i :: 0 <= i < |rows| ==> IsRecent(rows[i], cutoff, parse)
    ensures Recent(rows, cutoff, parse) == rows
  {
    FilterAllPass(rows, d => IsRecent(d, cutoff, parse));
  }

  /**
   * A row stamped exactly at the cutoff is dropped; one stamped one second
   * (1000 ms) later is kept.
   */
  lemma RecentAtCutoff(d: Observation, e: Observation, cutoff: int, parse: string -> Option<int>)
    requires parse(NormalizeDate(d.datetime)) == Some(cutoff)
    requires parse(NormalizeDate(e.datetime)) == Some(cutoff + 1000)
    ensures Recent([d, e], cutoff, parse) == [e]
  {
    var p := (o: Observation) => IsRecent(o, cutoff, parse);
    assert !p(d) && p(e);
    assert [d, e][1..] == [e];
    assert [e][1..] == [];
    assert Filter([e], p) == [e];
    assert Filter([d, e], p) == [e];
  }
}
