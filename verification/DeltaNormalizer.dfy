/** The normaliser that turns absolute targets into traded deltas, constructed once per join. */
module DeltaNormalizer {
  import opened Prelude
  import opened ByteLines
  import opened StableSort
  import opened Settlement

  type Nets = map<Bucket, real>

  function NetOf(nets: Nets, b: Bucket): real {
    if b in nets then nets[b] else 0.0
  }

  /** The size the normaliser reads: true shares if there are any, else the fraction, which is zero
      where it is missing; a null one is not a number. */
  function Size(r: Rec): Field {
    if !Absent(r.shares) then r.shares else if r.fillSize.Missing? then Num(0.0) else r.fillSize
  }

  /** The delta of one record; an unreadable size abstains. */
  function DeltaFor(nets: Nets, r: Rec): real {
    if !Size(r).Num? then 0.0
    else if r.absolute then Size(r).v - NetOf(nets, r.bucket) else Size(r).v
  }

  function Advanced(nets: Nets, r: Rec): Nets {
    if !Size(r).Num? then nets
    else nets[r.bucket := if r.absolute then Size(r).v else NetOf(nets, r.bucket) + Size(r).v]
  }

  function AfterAll(nets: Nets, records: seq<Rec>): Nets {
    if records == [] then nets else Advanced(AfterAll(nets, Front(records)), Last(records))
  }

  /** The records with their fractions replaced by deltas, the normaliser starting from `nets`. */
  function DeltasFrom(nets: Nets, records: seq<Rec>): seq<Rec> {
    if records == [] then []
    else DeltasFrom(nets, Front(records))
         + [Last(records).(fillSize := Num(DeltaFor(AfterAll(nets, Front(records)), Last(records))))]
  }

  function ExecOrder(r: Rec): int {
    r.execOrder
  }

  /** The pre-pass: order by the text of the execution time, then a fresh normaliser. */
  function Deltas(records: seq<Rec>): seq<Rec> {
    DeltasFrom(map[], Sort(records, ExecOrder))
  }

  lemma {:induction false} DeltasInBatches(nets: Nets, a: seq<Rec>, b: seq<Rec>)
    ensures AfterAll(nets, a + b) == AfterAll(AfterAll(nets, a), b)
    ensures DeltasFrom(nets, a + b) == DeltasFrom(nets, a) + DeltasFrom(AfterAll(nets, a), b)
  {
    if b == [] {
      assert a + b == a;
    } else {
      FrontOfConcat(a, b);
      DeltasInBatches(nets, a, Front(b));
    }
  }

  /** The batch sets a target for the bucket. */
  predicate Retargets(records: seq<Rec>, b: Bucket) {
    exists r :: r in records && r.absolute && Size(r).Num? && r.bucket == b
  }

  lemma RetargetsSnoc(records: seq<Rec>, b: Bucket)
    requires records != []
    ensures var r := Last(records);
            Retargets(records, b) <==> Retargets(Front(records), b) || (r.absolute && Size(r).Num? && r.bucket == b)
  {
    assert records == Front(records) + [Last(records)];
    assert forall r :: r in Front(records) ==> r in records;
    assert Last(records) in records;
  }

  /** A target wipes out what the starting nets differed by; anything else keeps it. */
  lemma {:induction false} DifferenceKept(m: Nets, n: Nets, records: seq<Rec>, b: Bucket)
    ensures NetOf(AfterAll(m, records), b) - NetOf(AfterAll(n, records), b)
         == if Retargets(records, b) then 0.0 else NetOf(m, b) - NetOf(n, b)
  {
    if records != [] {
      DifferenceKept(m, n, Front(records), b);
      RetargetsSnoc(records, b);
    }
  }

  /** Two starting points give a batch the same deltas iff they agree on every bucket the
      batch retargets. */
  lemma {:induction false} SameDeltasIff(m: Nets, n: Nets, records: seq<Rec>)
    ensures DeltasFrom(m, records) == DeltasFrom(n, records)
            <==> forall b :: Retargets(records, b) ==> NetOf(m, b) == NetOf(n, b)
  {
    if records != [] {
      var r := Last(records);
      SameDeltasIff(m, n, Front(records));
      DifferenceKept(m, n, Front(records), r.bucket);
      forall b ensures Retargets(records, b) <==>
                       Retargets(Front(records), b) || (r.absolute && Size(r).Num? && r.bucket == b) {
        RetargetsSnoc(records, b);
      }
      var x, y := DeltasFrom(m, records), DeltasFrom(n, records);
      assert Front(x) == DeltasFrom(m, Front(records)) && Front(y) == DeltasFrom(n, Front(records));
      assert Last(x) == r.(fillSize := Num(DeltaFor(AfterAll(m, Front(records)), r)));
      assert Last(y) == r.(fillSize := Num(DeltaFor(AfterAll(n, Front(records)), r)));
      assert x == Front(x) + [Last(x)] && y == Front(y) + [Last(y)];
    }
  }

  lemma FreshInOrder(a: seq<Rec>, b: seq<Rec>)
    ensures DeltasFrom(map[], a + b) == DeltasFrom(map[], a) + DeltasFrom(map[], b)
            <==> forall k :: Retargets(b, k) ==> NetOf(AfterAll(map[], a), k) == 0.0
  {
    DeltasInBatches(map[], a, b);
    SameDeltasIff(AfterAll(map[], a), map[], b);
    var p, x, y := DeltasFrom(map[], a), DeltasFrom(AfterAll(map[], a), b), DeltasFrom(map[], b);
    if p + x == p + y {
      assert x == (p + x)[|p|..] == (p + y)[|p|..] == y;
    }
  }

  // ---------------------------------------------------------------- deltas add up to the target

  /** The traded sizes of a bucket, as written. */
  function SizesOf(records: seq<Rec>, b: Bucket): real {
    if records == [] then 0.0
    else SizesOf(Front(records), b)
         + (if Last(records).bucket == b && Last(records).fillSize.Num? then Last(records).fillSize.v else 0.0)
  }

  /** The deltas of a bucket add up to what its net moved by. */
  lemma {:induction false} DeltasAddUp(nets: Nets, records: seq<Rec>, b: Bucket)
    ensures SizesOf(DeltasFrom(nets, records), b) == NetOf(AfterAll(nets, records), b) - NetOf(nets, b)
  {
    if records != [] {
      DeltasAddUp(nets, Front(records), b);
      var r := Last(records);
      FrontLast(DeltasFrom(nets, Front(records)), r.(fillSize := Num(DeltaFor(AfterAll(nets, Front(records)), r))));
    }
  }

  /** And the net is the last target, with what was traded since: a record's size is its true shares,
      else its fraction, else nothing; a null one says nothing. */
  lemma NetAfterOne(nets: Nets, records: seq<Rec>, r: Rec, b: Bucket)
    ensures var was, now := NetOf(AfterAll(nets, records), b), NetOf(AfterAll(nets, records + [r]), b);
            var size := if r.shares.Num? || r.shares.Unreadable? then r.shares
                        else if r.fillSize.Missing? then Num(0.0) else r.fillSize;
            if r.bucket != b || !size.Num? then now == was
            else now == if r.absolute then size.v else was + size.v
  {
    FrontLast(records, r);
  }

  // ---------------------------------------------------------------- the pre-pass in batches

  /** Only the size of a record is rewritten. */
  predicate Resized(d: Rec, r: Rec) {
    d == r.(fillSize := d.fillSize)
  }

  lemma {:induction false} OnlySizesChange(nets: Nets, records: seq<Rec>)
    ensures |DeltasFrom(nets, records)| == |records|
    ensures forall i :: 0 <= i < |records| ==> Resized(DeltasFrom(nets, records)[i], records[i])
  {
    hide DeltaFor, AfterAll;
    if records != [] {
      OnlySizesChange(nets, Front(records));
    }
  }

  /** The pre-pass sorts, and keeps every record but for its size. */
  lemma DeltasAreSorted(records: seq<Rec>)
    ensures Sorted(Deltas(records), ExecOrder)
  {
    SortIsStable(records, ExecOrder);
    OnlySizesChange(map[], Sort(records, ExecOrder));
    hide Sort, DeltasFrom;
  }

  lemma DeltaOf(records: seq<Rec>, d: Rec) returns (r: Rec)
    requires d in Deltas(records)
    ensures r in records && Resized(d, r)
  {
    SortMembers(records, ExecOrder);
    OnlySizesChange(map[], Sort(records, ExecOrder));
    hide Sort, DeltasFrom, Resized;
    var i :| 0 <= i < |Deltas(records)| && Deltas(records)[i] == d;
    r := Sort(records, ExecOrder)[i];
  }

  lemma DeltaOfRecord(records: seq<Rec>, r: Rec) returns (d: Rec)
    requires r in records
    ensures d in Deltas(records) && Resized(d, r)
  {
    SortMembers(records, ExecOrder);
    OnlySizesChange(map[], Sort(records, ExecOrder));
    hide Sort, DeltasFrom, Resized;
    var s := Sort(records, ExecOrder);
    assert r in s;
    var i :| 0 <= i < |s| && s[i] == r;
    d := Deltas(records)[i];
  }

  /** No record of the batch carries an earlier execution-time text than one of the prefix. */
  predicate Ordered(a: seq<Rec>, b: seq<Rec>) {
    forall q, r :: q in a && r in b ==> ExecOrder(q) <= ExecOrder(r)
  }

  /** What the normaliser holds for a bucket once it has read the records. */
  function NetAfter(records: seq<Rec>, b: Bucket): real {
    NetOf(AfterAll(map[], Sort(records, ExecOrder)), b)
  }

  /** The batch re-targets only buckets that were flat. */
  predicate RetargetsFlat(a: seq<Rec>, b: seq<Rec>) {
    forall r :: r in b && r.absolute && Size(r).Num? ==> NetAfter(a, r.bucket) == 0.0
  }

  lemma SplitIsOrdered(a: seq<Rec>, b: seq<Rec>)
    requires Deltas(a + b) == Deltas(a) + Deltas(b)
    ensures Ordered(a, b)
  {
    DeltasAreSorted(a + b);
    hide Deltas;
    forall q, r | q in a && r in b ensures ExecOrder(q) <= ExecOrder(r) {
      var c := DeltaOfRecord(a, q);
      var d := DeltaOfRecord(b, r);
      AcrossSorted(Deltas(a), Deltas(b), c, d);
    }
  }

  lemma AcrossSorted(s: seq<Rec>, t: seq<Rec>, c: Rec, d: Rec)
    requires Sorted(s + t, ExecOrder) && c in s && d in t
    ensures ExecOrder(c) <= ExecOrder(d)
  {
    var i :| 0 <= i < |s| && s[i] == c;
    var j :| 0 <= j < |t| && t[j] == d;
    assert (s + t)[i] == c && (s + t)[|s| + j] == d;
  }

  /** A fresh normaliser gives a batch the deltas it has in the whole stream iff the batch
      sorts after what came before and re-targets only buckets that were flat. */
  lemma FreshNormaliserIff(a: seq<Rec>, b: seq<Rec>)
    ensures Deltas(a + b) == Deltas(a) + Deltas(b) <==> Ordered(a, b) && RetargetsFlat(a, b)
  {
    hide Sort, DeltasFrom, RetargetsFlat;
    if Deltas(a + b) == Deltas(a) + Deltas(b) {
      SplitIsOrdered(a, b);
    }
    if Ordered(a, b) {
      SortConcat(a, b, ExecOrder);
      FreshInOrder(Sort(a, ExecOrder), Sort(b, ExecOrder));
      SortedRetargets(a, b);
    }
  }

  lemma SortedRetargets(a: seq<Rec>, b: seq<Rec>)
    ensures RetargetsFlat(a, b) <==> forall k :: Retargets(Sort(b, ExecOrder), k) ==> NetAfter(a, k) == 0.0
  {
    SortMembers(b, ExecOrder);
    hide Sort, AfterAll;
    var t := Sort(b, ExecOrder);
    if RetargetsFlat(a, b) {
      forall k | Retargets(t, k) ensures NetAfter(a, k) == 0.0 {
        var r :| r in t && r.absolute && Size(r).Num? && r.bucket == k;
      }
    }
    if forall k :: Retargets(t, k) ==> NetAfter(a, k) == 0.0 {
      forall r | r in b && r.absolute && Size(r).Num? ensures NetAfter(a, r.bucket) == 0.0 {
        assert r in t && Retargets(t, r.bucket);
      }
    }
  }
}
