/** The errors with which the bios of a request end (blk-core.c, req_bio_endio), over any run of
    completions. */
module CompletionErrors {
  import opened Completion

  function Bios(c: Chain): seq<Bio> {
    match c
    case Empty => []
    case Cons(b, next) => [b] + Bios(next)
  }

  /** How many bytes the bios before the `j`-th have. */
  function Offset(c: Chain, j: nat): nat {
    if j == 0 || c == Empty then 0 else c.bio.size + Offset(c.next, j - 1)
  }

  function Max(a: int, b: int): int {
    if a >= b then a else b
  }

  // ---------------------------------------------------------------- one completion

  /** A call with an error ends every bio that it ends with that error; one without ends them with
      success, or with -EIO (five) if an earlier part of the bio has failed. */
  lemma {:induction false} CallErrors(c: Chain, n: nat, error: int, j: nat)
    requires j < |Ends(c, n, error)|
    ensures j < |Bios(c)| && Ends(c, n, error)[j].id == Bios(c)[j].id
    ensures error != 0 ==> Ends(c, n, error)[j].error == error
    ensures error == 0 ==> Ends(c, n, error)[j].error == if Bios(c)[j].uptodate then 0 else -5
  {
    if j > 0 { CallErrors(c.next, n - c.bio.size, error, j - 1); }
  }

  /** The `j`-th bio is over, with its errors left to be said. */
  ghost predicate Over(c: Chain, n: nat, error: int, j: nat) {
    j < |Ends(c, n, error)|
  }

  /** The `j`-th bio is left, less the bytes that were done; it stays up to date unless bytes of it
      have failed. */
  ghost predicate Left(c: Chain, n: nat, error: int, j: nat)
    requires BiosOk(c) && j < |Bios(c)|
  {
    var k, rest, b := |Ends(c, n, error)|, Rest(c, n, error), Bios(c)[j];
    && k <= j && j - k < |Bios(rest)|
    && Bios(rest)[j - k].id == b.id
    && Bios(rest)[j - k].size == Offset(c, j) + b.size - Max(n, Offset(c, j))
    && Bios(rest)[j - k].uptodate == (b.uptodate && (n > Offset(c, j) ==> error == 0))
    && Offset(rest, j - k) == Max(Offset(c, j) - n, 0)
  }

  lemma {:induction false} CallBio(c: Chain, n: nat, error: int, j: nat)
    requires BiosOk(c) && j < |Bios(c)|
    ensures if n >= Offset(c, j) + Bios(c)[j].size then Over(c, n, error, j) else Left(c, n, error, j)
  {
    hide Left, Rest, BiosOk;
    NextOk(c);
    if n >= c.bio.size {
      if j > 0 {
        CallBio(c.next, n - c.bio.size, error, j - 1);
        if n < Offset(c, j) + Bios(c)[j].size { LeftLater(c, n, error, j); }
      }
    } else {
      if j > 0 { OffsetAhead(c, j); }
      LeftHere(c, n, error, j);
    }
  }

  lemma NextOk(c: Chain)
    requires BiosOk(c) && c.Cons?
    ensures BioOk(c.bio) && BiosOk(c.next)
  {}

  lemma LeftLater(c: Chain, n: nat, error: int, j: nat)
    requires BiosOk(c) && c.Cons? && BiosOk(c.next) && n >= c.bio.size && 0 < j < |Bios(c)|
    requires j - 1 < |Bios(c.next)| && Left(c.next, n - c.bio.size, error, j - 1)
    ensures Left(c, n, error, j)
  {
    hide BiosOk, Trim;
    assert Rest(c, n, error) == Rest(c.next, n - c.bio.size, error);
  }

  lemma LeftHere(c: Chain, n: nat, error: int, j: nat)
    requires BiosOk(c) && c.Cons? && n < c.bio.size && j < |Bios(c)| && (j > 0 ==> Offset(c, j) >= c.bio.size)
    ensures Left(c, n, error, j)
  {
    NextOk(c);
    hide BiosOk, Trim, BioOk;
    TrimIs(c.bio, n, error);
    assert Rest(c, n, error) == Cons(Trim(c.bio, n, error), c.next);
  }

  lemma TrimIs(b: Bio, n: nat, error: int)
    requires BioOk(b) && n < b.size
    ensures var t := Trim(b, n, error);
            t.id == b.id && t.size == b.size - n && t.uptodate == (b.uptodate && (n > 0 ==> error == 0))
  {}

  lemma OffsetAhead(c: Chain, j: nat)
    requires c.Cons? && j > 0
    ensures Offset(c, j) >= c.bio.size
  {}

  // ---------------------------------------------------------------- runs

  /** The call is the one with which the bio that ends at byte `hi` is over. */
  ghost predicate Finishes(calls: seq<Call>, k: nat, hi: nat) {
    k < |calls| && Sum(calls[..k]) < hi <= Sum(calls[..k + 1])
  }

  /** The call does bytes from `lo` up to `hi`. */
  ghost predicate Touches(calls: seq<Call>, k: nat, lo: nat, hi: nat) {
    k < |calls| && calls[k].n > 0 && Sum(calls[..k]) < hi && lo < Sum(calls[..k + 1])
  }

  /** No call that did bytes of the bio had an error. */
  ghost predicate Clean(calls: seq<Call>, lo: nat, hi: nat) {
    forall k: nat | Touches(calls, k, lo, hi) :: calls[k].error == 0
  }

  lemma OneMoreCall(calls: seq<Call>, k: nat)
    requires calls != [] && k < |calls|
    ensures var pre := calls[..|calls|-1];
            && Sum(calls[..k]) == Sum(pre[..k])
            && (k < |pre| ==> Sum(calls[..k + 1]) == Sum(pre[..k + 1]) && calls[k] == pre[k])
            && (k == |pre| ==> Sum(calls[..k]) == Sum(pre) && Sum(calls[..k + 1]) == Sum(calls))
  {
    var pre := calls[..|calls|-1];
    assert calls[..k] == pre[..k];
    if k < |pre| {
      assert calls[..k + 1] == pre[..k + 1];
    } else {
      assert pre[..k] == pre && calls[..k + 1] == calls;
    }
  }

  lemma CleanMore(calls: seq<Call>, lo: nat, hi: nat)
    requires calls != []
    ensures var pre, n := calls[..|calls|-1], |calls| - 1;
            Clean(calls, lo, hi) <==> Clean(pre, lo, hi) && (Touches(calls, n, lo, hi) ==> calls[n].error == 0)
  {
    var pre, n := calls[..|calls|-1], |calls| - 1;
    forall k: nat | k < n ensures Touches(calls, k, lo, hi) <==> Touches(pre, k, lo, hi) {
      OneMoreCall(calls, k);
    }
    if Clean(calls, lo, hi) {
      forall k: nat | Touches(pre, k, lo, hi) ensures pre[k].error == 0 { assert Touches(calls, k, lo, hi); }
    }
    if Clean(pre, lo, hi) && (Touches(calls, n, lo, hi) ==> calls[n].error == 0) {
      forall k: nat | Touches(calls, k, lo, hi) ensures calls[k].error == 0 { assert k < n ==> Touches(pre, k, lo, hi); }
    }
  }

  /** What is said of a bio that has ended. */
  ghost predicate Verdict(calls: seq<Call>, lo: nat, hi: nat, error: int) {
    && (error == 0 <==> Clean(calls, lo, hi))
    && forall k: nat | Finishes(calls, k, hi) ::
         if calls[k].error != 0 then error == calls[k].error else !Clean(calls, lo, hi) ==> error == -5
  }

  /** Where the `j`-th bio of the request is after the calls. */
  ghost predicate Tracked(r: Request, calls: seq<Call>, j: nat)
    requires Ok(r) && j < |Bios(r.bios)|
  {
    var d, b, lo, n := AfterAll(r, calls), Bios(r.bios)[j], Offset(r.bios, j), Sum(calls);
    if lo + b.size <= n then
      j < |d.ended| && d.ended[j].id == b.id && Verdict(calls, lo, lo + b.size, d.ended[j].error)
    else
      var i := j - |d.ended|;
      && 0 <= i < |Bios(d.bios)| && Bios(d.bios)[i].id == b.id
      && Bios(d.bios)[i].size == lo + b.size - Max(n, lo) && Offset(d.bios, i) == Max(lo - n, 0)
      && Bios(d.bios)[i].uptodate == Clean(calls, lo, lo + b.size)
  }

  lemma NothingDone(r: Request, j: nat)
    requires Ok(r) && r.ended == [] && j < |Bios(r.bios)| && Bios(r.bios)[j].uptodate && Bios(r.bios)[j].size > 0
    ensures Tracked(r, [], j)
  {}

  /** What was said stays true. */
  lemma VerdictStays(calls: seq<Call>, lo: nat, hi: nat, error: int)
    requires calls != [] && hi <= Sum(calls[..|calls|-1]) && Verdict(calls[..|calls|-1], lo, hi, error)
    ensures Verdict(calls, lo, hi, error)
  {
    var n := |calls| - 1;
    CleanMore(calls, lo, hi);
    OneMoreCall(calls, n);
    forall k: nat | Finishes(calls, k, hi)
      ensures if calls[k].error != 0 then error == calls[k].error else !Clean(calls, lo, hi) ==> error == -5
    {
      OneMoreCall(calls, k);
      assert Finishes(calls[..n], k, hi);
    }
  }

  /** The bio ends with the last call. */
  lemma VerdictGiven(calls: seq<Call>, lo: nat, hi: nat, error: int)
    requires calls != [] && lo < hi && Sum(calls[..|calls|-1]) < hi <= Sum(calls)
    requires var e := calls[|calls|-1].error;
             error == if e != 0 then e else if Clean(calls[..|calls|-1], lo, hi) then 0 else -5
    ensures Verdict(calls, lo, hi, error)
  {
    var n := |calls| - 1;
    CleanMore(calls, lo, hi);
    OneMoreCall(calls, n);
    assert Touches(calls, n, lo, hi);
    forall k: nat | Finishes(calls, k, hi) ensures k == n {
      OneMoreCall(calls, k);
      if k < n { SumGrows(calls[..n], k + 1); }
    }
  }

  lemma {:induction false} SumGrows(calls: seq<Call>, k: nat)
    requires k <= |calls|
    ensures Sum(calls[..k]) <= Sum(calls)
    decreases |calls|
  {
    if k < |calls| {
      var pre := calls[..|calls|-1];
      SumGrows(pre, k);
      assert pre[..k] == calls[..k];
    } else {
      assert calls[..k] == calls;
    }
  }

  lemma CleanTouched(calls: seq<Call>, lo: nat, hi: nat)
    requires calls != [] && lo < hi && Sum(calls) < hi
    ensures var n := |calls| - 1;
            Clean(calls, lo, hi) <==> Clean(calls[..n], lo, hi) && (Sum(calls) > lo && calls[n].n > 0 ==> calls[n].error == 0)
  {
    CleanMore(calls, lo, hi);
    OneMoreCall(calls, |calls| - 1);
  }

  lemma CompletedIs(m: Request, error: int, n: nat)
    requires Ok(m) && m.bios != Empty
    ensures var d := Completed(m, error, n); d.bios == Rest(m.bios, n, error) && d.ended == m.ended + Ends(m.bios, n, error)
  {}

  /** One more call. */
  lemma TrackCall(r: Request, calls: seq<Call>, j: nat)
    requires Ok(r) && j < |Bios(r.bios)| && Bios(r.bios)[j].size > 0 && calls != [] && Tracked(r, calls[..|calls|-1], j)
    ensures Tracked(r, calls, j)
  {
    hide Ok, Completed, Clean, Verdict, BiosOk;
    var pre, c := calls[..|calls|-1], calls[|calls|-1];
    var m, d := AfterAll(r, pre), AfterAll(r, calls);
    var b, lo, n := Bios(r.bios)[j], Offset(r.bios, j), Sum(pre);
    var hi := lo + b.size;
    if m.bios == Empty {
      assert hi <= n;
      NoBiosLeft(m, c.error, c.n);
      VerdictStays(calls, lo, hi, m.ended[j].error);
    } else {
      CompletedIs(m, c.error, c.n);
      if hi <= n {
        VerdictStays(calls, lo, hi, m.ended[j].error);
      } else {
        OkBios(m);
        var i := j - |m.ended|;
        CallBio(m.bios, c.n, c.error, i);
        if hi <= n + c.n {
          CallErrors(m.bios, c.n, c.error, i);
          VerdictGiven(calls, lo, hi, d.ended[j].error);
        } else {
          CleanTouched(calls, lo, hi);
        }
      }
    }
  }

  lemma OkBios(m: Request)
    requires Ok(m)
    ensures BiosOk(m.bios)
  {}

  lemma NoBiosLeft(m: Request, error: int, n: nat)
    requires Ok(m) && m.bios == Empty
    ensures Completed(m, error, n) == m
  {}

  lemma {:induction false} TrackRun(r: Request, calls: seq<Call>, j: nat)
    requires Ok(r) && r.ended == [] && j < |Bios(r.bios)| && Bios(r.bios)[j].uptodate && Bios(r.bios)[j].size > 0
    ensures Tracked(r, calls, j)
    decreases |calls|
  {
    if calls == [] {
      NothingDone(r, j);
    } else {
      TrackRun(r, calls[..|calls|-1], j);
      TrackCall(r, calls, j);
    }
  }

  /** However a request is completed in parts: a bio that was up to date has ended exactly if all its
      bytes are done. It has ended with success exactly if no call that did bytes of it had an error.
      Otherwise it reports the error of the call that finished it, or -EIO if that had none. */
  lemma RunErrors(r: Request, calls: seq<Call>, j: nat)
    requires Ok(r) && r.ended == [] && j < |Bios(r.bios)| && Bios(r.bios)[j].uptodate && Bios(r.bios)[j].size > 0
    ensures var d, b, lo := AfterAll(r, calls), Bios(r.bios)[j], Offset(r.bios, j);
            var hi := lo + b.size;
            && (j < |d.ended| <==> hi <= Sum(calls))
            && (j < |d.ended| ==>
                  && d.ended[j].id == b.id
                  && (d.ended[j].error == 0 <==> forall k: nat | Touches(calls, k, lo, hi) :: calls[k].error == 0)
                  && forall k: nat | Finishes(calls, k, hi) ::
                       if calls[k].error != 0 then d.ended[j].error == calls[k].error
                       else d.ended[j].error in {0, -5})
  {
    hide Ok, AfterAll, Sum, Touches, Finishes, Bios, Offset;
    TrackRun(r, calls, j);
  }
}
