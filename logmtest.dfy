/**
 * The in-memory log recorder and its assertion matcher (package logmtest).
 *
 * A Recorder collects what a logger writes. Expect replays the recorded
 * lines, in arrival order, against a list of expectations: each line claims
 * the first expectation not yet matched whose pattern it contains. In strict
 * mode a line that claims nothing fails at once; in ordered mode a line that
 * claims an expectation listed before the previously claimed one fails at
 * once. When every line has been replayed, each expectation still unmatched
 * is reported.
 */
module LogmTest {
  import opened Wrappers
  import Text

  /**
   * Record: Contains is the literal substring to find; ok says whether a
   * line has already matched it. The field ok is unexported in package logmtest,
   * so callers outside the package always pass records with ok == false.
   */
  datatype Record = Record(Contains: string, ok: bool)

  /** The Record{Contains: pattern} a caller writes; the contract is the literal itself. */
  function Expectation(pattern: string): (r: Record)
    ensures r.Contains == pattern && !r.ok
  {
    Record(pattern, false)
  }

  /**
   * The errors Expect reports, all of the strconv.ErrRange class: a line no
   * remaining expectation matches (strict mode), a line matching out of
   * order (ordered mode), and an expectation left unmatched at the end.
   */
  datatype Mismatch =
    | UnexpectedLine(line: string)
    | OutOfOrder(line: string)
    | Unmet(index: nat, pattern: string)

  /** The line can claim this record: not yet matched, and it contains the pattern. */
  predicate Satisfies(r: Record, line: string)
  {
    !r.ok && Text.Contains(line, r.Contains)
  }

  /** The lowest index at or after from whose record the line can claim. */
  function FirstMatch(rs: seq<Record>, line: string, from: nat): (r: Option<nat>)
    requires from <= |rs|
    ensures r.Some? ==> from <= r.value < |rs| && Satisfies(rs[r.value], line)
    ensures r.Some? ==> forall j :: from <= j < r.value ==> !Satisfies(rs[j], line)
    ensures r.None? ==> forall j :: from <= j < |rs| ==> !Satisfies(rs[j], line)
    decreases |rs| - from
  {
    if from == |rs| then None
    else if Satisfies(rs[from], line) then Some(from)
    else FirstMatch(rs, line, from + 1)
  }

  /** The records after record k has been claimed. */
  function Mark(rs: seq<Record>, k: nat): seq<Record>
    requires k < |rs|
  {
    rs[k := rs[k].(ok := true)]
  }

  /** How replaying the lines ends: stopped early by a mismatch, or with the final records. */
  datatype Outcome =
    | Halted(failure: Mismatch)
    | Finished(records: seq<Record>, picks: seq<nat>)

  /**
   * Replays lines against rs; pp is the index claimed by the previous line
   * (0 before the first), picks the indices claimed so far, in line order.
   */
  function Replay(rs: seq<Record>, lines: seq<string>, pp: nat, picks: seq<nat>,
                  anyOrder: bool, unexpected: bool): Outcome
    decreases |lines|
  {
    if |lines| == 0 then Finished(rs, picks)
    else
      match FirstMatch(rs, lines[0], 0)
      case None =>
        if unexpected then Replay(rs, lines[1..], pp, picks, anyOrder, unexpected)
        else Halted(UnexpectedLine(lines[0]))
      case Some(cp) =>
        if cp < pp && !anyOrder then Halted(OutOfOrder(lines[0]))
        else Replay(Mark(rs, cp), lines[1..], cp, picks + [cp], anyOrder, unexpected)
  }

  /** records.Err's report, built from the last record back. */
  function UnmetErrors(rs: seq<Record>): seq<Mismatch>
    decreases |rs|
  {
    if |rs| == 0 then []
    else
      var last := |rs| - 1;
      UnmetErrors(rs[..last]) + (if rs[last].ok then [] else [Unmet(last, rs[last].Contains)])
  }

  /** records.Err reports only unmatched records, with their pattern, in strictly increasing index order. */
  lemma {:induction false} UnmetErrorsSound(rs: seq<Record>)
    ensures forall i :: 0 <= i < |UnmetErrors(rs)| ==>
      && UnmetErrors(rs)[i].Unmet?
      && UnmetErrors(rs)[i].index < |rs|
      && !rs[UnmetErrors(rs)[i].index].ok
      && UnmetErrors(rs)[i].pattern == rs[UnmetErrors(rs)[i].index].Contains
    ensures forall i, j :: 0 <= i < j < |UnmetErrors(rs)| ==> UnmetErrors(rs)[i].index < UnmetErrors(rs)[j].index
    decreases |rs|
  {
    if |rs| > 0 {
      var last := |rs| - 1;
      var init := rs[..last];
      UnmetErrorsSound(init);
      var prev := UnmetErrors(init);
      var tail: seq<Mismatch> := if rs[last].ok then [] else [Unmet(last, rs[last].Contains)];
      var errs := UnmetErrors(rs);
      assert errs == prev + tail;
      assert forall k :: 0 <= k < last ==> init[k] == rs[k];
      forall i | 0 <= i < |errs|
        ensures errs[i].Unmet? && errs[i].index < |rs| && !rs[errs[i].index].ok
        ensures errs[i].pattern == rs[errs[i].index].Contains
      {
        if i < |prev| {
          assert errs[i] == prev[i];
          assert prev[i].Unmet? && prev[i].index < last && !init[prev[i].index].ok;
        } else {
          assert errs[i] == tail[i - |prev|];
        }
      }
      forall i, j | 0 <= i < j < |errs| ensures errs[i].index < errs[j].index {
        assert errs[i] == prev[i];
        assert prev[i].index < last;
        if j < |prev| {
          assert errs[j] == prev[j];
        } else {
          assert errs[j] == tail[j - |prev|];
        }
      }
    }
  }

  /** records.Err reports every unmatched record. */
  lemma {:induction false} UnmetErrorsComplete(rs: seq<Record>)
    ensures forall k :: 0 <= k < |rs| && !rs[k].ok ==> Unmet(k, rs[k].Contains) in UnmetErrors(rs)
    decreases |rs|
  {
    if |rs| > 0 {
      var last := |rs| - 1;
      var init := rs[..last];
      UnmetErrorsComplete(init);
      var errs := UnmetErrors(rs);
      forall k | 0 <= k < |rs| && !rs[k].ok ensures Unmet(k, rs[k].Contains) in errs {
        if k < last {
          assert init[k] == rs[k];
        }
      }
    }
  }

  /**
   * records.Err reports one Unmet per record not matched, with its index and
   * pattern, in index order, and nothing else; it is empty exactly when every
   * record is matched.
   */
  lemma UnmetErrorsReportsUnmatched(rs: seq<Record>)
    ensures forall i :: 0 <= i < |UnmetErrors(rs)| ==>
      && UnmetErrors(rs)[i].Unmet?
      && UnmetErrors(rs)[i].index < |rs|
      && !rs[UnmetErrors(rs)[i].index].ok
      && UnmetErrors(rs)[i].pattern == rs[UnmetErrors(rs)[i].index].Contains
    ensures forall i, j :: 0 <= i < j < |UnmetErrors(rs)| ==> UnmetErrors(rs)[i].index < UnmetErrors(rs)[j].index
    ensures forall k :: 0 <= k < |rs| && !rs[k].ok ==> Unmet(k, rs[k].Contains) in UnmetErrors(rs)
    ensures UnmetErrors(rs) == [] <==> forall k :: 0 <= k < |rs| ==> rs[k].ok
  {
    UnmetErrorsSound(rs);
    UnmetErrorsComplete(rs);
  }

  /** What Expect reports for the expectations list on these lines; [] stands for a nil error. */
  function Verify(list: seq<Record>, lines: seq<string>, anyOrder: bool, unexpected: bool): seq<Mismatch>
  {
    match Replay(list, lines, 0, [], anyOrder, unexpected)
    case Halted(f) => [f]
    case Finished(rs, _) => UnmetErrors(rs)
  }

  /** Replaying keeps the records' number and patterns, and only ever appends to the claims. */
  lemma {:induction false} ReplayKeepsPatterns(rs: seq<Record>, lines: seq<string>, pp: nat,
                                              picks: seq<nat>, anyOrder: bool, unexpected: bool)
    requires Replay(rs, lines, pp, picks, anyOrder, unexpected).Finished?
    ensures |Replay(rs, lines, pp, picks, anyOrder, unexpected).records| == |rs|
    ensures |picks| <= |Replay(rs, lines, pp, picks, anyOrder, unexpected).picks|
    ensures Replay(rs, lines, pp, picks, anyOrder, unexpected).picks[..|picks|] == picks
    ensures forall j :: 0 <= j < |rs| ==>
      Replay(rs, lines, pp, picks, anyOrder, unexpected).records[j].Contains == rs[j].Contains
    decreases |lines|
  {
    if |lines| > 0 {
      match FirstMatch(rs, lines[0], 0)
      case None =>
        ReplayKeepsPatterns(rs, lines[1..], pp, picks, anyOrder, unexpected);
      case Some(cp) =>
        var o := Replay(rs, lines, pp, picks, anyOrder, unexpected);
        var picks1 := picks + [cp];
        ReplayKeepsPatterns(Mark(rs, cp), lines[1..], cp, picks1, anyOrder, unexpected);
        assert o.picks[..|picks1|][..|picks|] == o.picks[..|picks|];
    }
  }

  /**
   * The outcome o of replaying from rs with claims picks so far claimed each
   * record at most once and only if it was unmatched, and the records matched
   * at the end are exactly those matched at the start plus those claimed.
   */
  ghost predicate ClaimedOnce(rs: seq<Record>, picks: seq<nat>, o: Outcome)
  {
    && o.Finished?
    && |o.records| == |rs|
    && |picks| <= |o.picks|
    && (forall j :: 0 <= j < |rs| ==> (o.records[j].ok <==> rs[j].ok || j in o.picks[|picks|..]))
    && (forall i :: |picks| <= i < |o.picks| ==> o.picks[i] < |rs| && !rs[o.picks[i]].ok)
    && (forall i, i' :: |picks| <= i < i' < |o.picks| ==> o.picks[i] != o.picks[i'])
  }

  /** Claiming the unmatched record cp first, then the rest as o did, claims each record once. */
  lemma ClaimStepKeepsOnce(rs: seq<Record>, picks: seq<nat>, cp: nat, o: Outcome)
    requires cp < |rs| && !rs[cp].ok
    requires ClaimedOnce(Mark(rs, cp), picks + [cp], o)
    requires o.picks[..|picks| + 1] == picks + [cp]
    ensures ClaimedOnce(rs, picks, o)
  {
    var rs1, picks1 := Mark(rs, cp), picks + [cp];
    assert o.picks[|picks|] == cp by {
      assert o.picks[..|picks1|][|picks|] == picks1[|picks|];
    }
    assert o.picks[|picks|..] == [cp] + o.picks[|picks1|..];
    forall j | 0 <= j < |rs|
      ensures o.records[j].ok <==> rs[j].ok || j in o.picks[|picks|..]
    {
      assert rs1[j].ok <==> rs[j].ok || j == cp;
    }
    forall i | |picks| <= i < |o.picks|
      ensures o.picks[i] < |rs| && !rs[o.picks[i]].ok
    {
      if i > |picks| {
        assert !rs1[o.picks[i]].ok;
      }
    }
    forall i, i' | |picks| <= i < i' < |o.picks| ensures o.picks[i] != o.picks[i'] {
      if i == |picks| {
        assert rs1[cp].ok && !rs1[o.picks[i']].ok;
      }
    }
  }

  /** A replay that finishes claims each record at most once (see ClaimedOnce). */
  lemma {:induction false} ReplayClaimsEachRecordOnce(rs: seq<Record>, lines: seq<string>, pp: nat,
                                                     picks: seq<nat>, anyOrder: bool, unexpected: bool)
    requires Replay(rs, lines, pp, picks, anyOrder, unexpected).Finished?
    ensures ClaimedOnce(rs, picks, Replay(rs, lines, pp, picks, anyOrder, unexpected))
    decreases |lines|
  {
    ReplayKeepsPatterns(rs, lines, pp, picks, anyOrder, unexpected);
    if |lines| > 0 {
      match FirstMatch(rs, lines[0], 0)
      case None =>
        ReplayClaimsEachRecordOnce(rs, lines[1..], pp, picks, anyOrder, unexpected);
      case Some(cp) =>
        var rs1, picks1 := Mark(rs, cp), picks + [cp];
        var o := Replay(rs1, lines[1..], cp, picks1, anyOrder, unexpected);
        ReplayClaimsEachRecordOnce(rs1, lines[1..], cp, picks1, anyOrder, unexpected);
        ReplayKeepsPatterns(rs1, lines[1..], cp, picks1, anyOrder, unexpected);
        ClaimStepKeepsOnce(rs, picks, cp, o);
    }
  }

  /**
   * In ordered mode a replay that finishes claims strictly increasing
   * indices, none below the previous claim pp.
   */
  lemma {:induction false} OrderedClaimsIncrease(rs: seq<Record>, lines: seq<string>, pp: nat,
                                                 picks: seq<nat>, unexpected: bool)
    requires Replay(rs, lines, pp, picks, false, unexpected).Finished?
    ensures var o := Replay(rs, lines, pp, picks, false, unexpected);
      && |picks| <= |o.picks|
      && (forall i :: |picks| <= i < |o.picks| ==> pp <= o.picks[i])
      && (forall i, i' :: |picks| <= i < i' < |o.picks| ==> o.picks[i] < o.picks[i'])
    decreases |lines|
  {
    ReplayClaimsEachRecordOnce(rs, lines, pp, picks, false, unexpected);
    ReplayKeepsPatterns(rs, lines, pp, picks, false, unexpected);
    if |lines| > 0 {
      match FirstMatch(rs, lines[0], 0)
      case None =>
        OrderedClaimsIncrease(rs, lines[1..], pp, picks, unexpected);
      case Some(cp) =>
        var rs1, picks1 := Mark(rs, cp), picks + [cp];
        var o := Replay(rs1, lines[1..], cp, picks1, false, unexpected);
        OrderedClaimsIncrease(rs1, lines[1..], cp, picks1, unexpected);
        ReplayClaimsEachRecordOnce(rs1, lines[1..], cp, picks1, false, unexpected);
        ReplayKeepsPatterns(rs1, lines[1..], cp, picks1, false, unexpected);
        assert o.picks[..|picks1|][..|picks|] == o.picks[..|picks|];
        assert o.picks[|picks|] == cp;
        forall i | |picks1| <= i < |o.picks| ensures cp < o.picks[i] {
          assert !rs1[o.picks[i]].ok;
        }
    }
  }

  /** With ExpectAnyOrder set, no line is ever reported out of order. */
  lemma {:induction false} AnyOrderNeverOutOfOrder(rs: seq<Record>, lines: seq<string>, pp: nat,
                                                   picks: seq<nat>, unexpected: bool)
    ensures !Replay(rs, lines, pp, picks, true, unexpected).Halted?
         || !Replay(rs, lines, pp, picks, true, unexpected).failure.OutOfOrder?
    decreases |lines|
  {
    if |lines| > 0 {
      match FirstMatch(rs, lines[0], 0)
      case None =>
        AnyOrderNeverOutOfOrder(rs, lines[1..], pp, picks, unexpected);
      case Some(cp) =>
        AnyOrderNeverOutOfOrder(Mark(rs, cp), lines[1..], cp, picks + [cp], unexpected);
    }
  }

  /** With ExpectUnexpected set, no line is ever reported as unexpected. */
  lemma {:induction false} TolerantNeverUnexpected(rs: seq<Record>, lines: seq<string>, pp: nat,
                                                   picks: seq<nat>, anyOrder: bool)
    ensures !Replay(rs, lines, pp, picks, anyOrder, true).Halted?
         || !Replay(rs, lines, pp, picks, anyOrder, true).failure.UnexpectedLine?
    decreases |lines|
  {
    if |lines| > 0 {
      match FirstMatch(rs, lines[0], 0)
      case None =>
        TolerantNeverUnexpected(rs, lines[1..], pp, picks, anyOrder);
      case Some(cp) =>
        TolerantNeverUnexpected(Mark(rs, cp), lines[1..], cp, picks + [cp], anyOrder);
    }
  }

  /** In strict mode a replay that finishes had every line claim a record. */
  lemma {:induction false} StrictClaimsEveryLine(rs: seq<Record>, lines: seq<string>, pp: nat,
                                                 picks: seq<nat>, anyOrder: bool)
    requires Replay(rs, lines, pp, picks, anyOrder, false).Finished?
    ensures |Replay(rs, lines, pp, picks, anyOrder, false).picks| == |picks| + |lines|
    decreases |lines|
  {
    if |lines| > 0 {
      match FirstMatch(rs, lines[0], 0)
      case None =>
      case Some(cp) =>
        StrictClaimsEveryLine(Mark(rs, cp), lines[1..], cp, picks + [cp], anyOrder);
    }
  }

  /**
   * ExpectAnyOrder only switches the order check off: wherever an ordered
   * replay does not stop on the order check, the unordered one ends
   * identically (finishing, or stopping on the same unexpected line),
   * whatever its previous-claim cursor.
   */
  lemma {:induction false} AnyOrderOnlyDropsOrderCheck(rs: seq<Record>, lines: seq<string>, pp: nat, pp': nat,
                                                       picks: seq<nat>, unexpected: bool)
    requires !(Replay(rs, lines, pp, picks, false, unexpected).Halted?
               && Replay(rs, lines, pp, picks, false, unexpected).failure.OutOfOrder?)
    ensures Replay(rs, lines, pp', picks, true, unexpected) == Replay(rs, lines, pp, picks, false, unexpected)
    decreases |lines|
  {
    if |lines| > 0 {
      match FirstMatch(rs, lines[0], 0)
      case None =>
        if unexpected {
          AnyOrderOnlyDropsOrderCheck(rs, lines[1..], pp, pp', picks, unexpected);
        }
      case Some(cp) =>
        AnyOrderOnlyDropsOrderCheck(Mark(rs, cp), lines[1..], cp, cp, picks + [cp], unexpected);
    }
  }

  /**
   * When every line has been replayed, Expect reports expectation k exactly
   * when it was neither matched beforehand nor claimed by a line, and it
   * reports nothing else.
   */
  lemma VerifyReportsUnclaimed(list: seq<Record>, lines: seq<string>, anyOrder: bool, unexpected: bool)
    requires Replay(list, lines, 0, [], anyOrder, unexpected).Finished?
    ensures var errs := Verify(list, lines, anyOrder, unexpected);
      var picks := Replay(list, lines, 0, [], anyOrder, unexpected).picks;
      && (forall e :: e in errs ==> e.Unmet?)
      && (forall k :: 0 <= k < |list| ==>
            (Unmet(k, list[k].Contains) in errs <==> !list[k].ok && k !in picks))
  {
    var o := Replay(list, lines, 0, [], anyOrder, unexpected);
    ReplayClaimsEachRecordOnce(list, lines, 0, [], anyOrder, unexpected);
    ReplayKeepsPatterns(list, lines, 0, [], anyOrder, unexpected);
    assert o.picks[0..] == o.picks;
    var errs := UnmetErrors(o.records);
    UnmetErrorsReportsUnmatched(o.records);
    forall k | 0 <= k < |list| && Unmet(k, list[k].Contains) in errs
      ensures !o.records[k].ok
    {
      var i :| 0 <= i < |errs| && errs[i] == Unmet(k, list[k].Contains);
    }
  }

  /** Expect succeeds exactly when the replay finishes and every expectation ends up matched. */
  lemma VerifySucceedsIff(list: seq<Record>, lines: seq<string>, anyOrder: bool, unexpected: bool)
    ensures Verify(list, lines, anyOrder, unexpected) == [] <==>
      && Replay(list, lines, 0, [], anyOrder, unexpected).Finished?
      && forall k :: 0 <= k < |list| ==>
           list[k].ok || k in Replay(list, lines, 0, [], anyOrder, unexpected).picks
  {
    var o := Replay(list, lines, 0, [], anyOrder, unexpected);
    if o.Finished? {
      ReplayClaimsEachRecordOnce(list, lines, 0, [], anyOrder, unexpected);
      ReplayKeepsPatterns(list, lines, 0, [], anyOrder, unexpected);
      UnmetErrorsReportsUnmatched(o.records);
      assert o.picks[0..] == o.picks;
    }
  }

  /** A successful ordered Expect claimed the expectations in strictly increasing list order. */
  lemma OrderedSuccessClaimsInOrder(list: seq<Record>, lines: seq<string>, unexpected: bool)
    requires Verify(list, lines, false, unexpected) == []
    ensures Replay(list, lines, 0, [], false, unexpected).Finished?
    ensures var picks := Replay(list, lines, 0, [], false, unexpected).picks;
      forall i, i' :: 0 <= i < i' < |picks| ==> picks[i] < picks[i']
  {
    OrderedClaimsIncrease(list, lines, 0, [], unexpected);
  }

  // The cases of the recorder's test table, for any lines and patterns in
  // the containment relations the table's messages are in.

  lemma NothingLoggedNothingExpected(anyOrder: bool, unexpected: bool)
    ensures Verify([], [], anyOrder, unexpected) == []
  {
  }

  /** In strict mode a first line that no expectation matches is reported, whatever follows it. */
  lemma StrictFirstLineUnmatched(list: seq<Record>, lines: seq<string>, anyOrder: bool)
    requires |lines| > 0 && FirstMatch(list, lines[0], 0) == None
    ensures Verify(list, lines, anyOrder, false) == [UnexpectedLine(lines[0])]
  {
  }

  /** One replay step: the first line claims record cp, which passes the order check. */
  lemma ReplayClaimStep(rs: seq<Record>, lines: seq<string>, pp: nat, picks: seq<nat>,
                        anyOrder: bool, unexpected: bool, cp: nat)
    requires |lines| > 0 && FirstMatch(rs, lines[0], 0) == Some(cp)
    requires anyOrder || pp <= cp
    ensures Replay(rs, lines, pp, picks, anyOrder, unexpected)
         == Replay(Mark(rs, cp), lines[1..], cp, picks + [cp], anyOrder, unexpected)
  {
  }

  lemma OneLoggedOneExpected(p: string, l: string, anyOrder: bool, unexpected: bool)
    requires Text.Contains(l, p)
    ensures Verify([Expectation(p)], [l], anyOrder, unexpected) == []
  {
    var rs := [Expectation(p)];
    assert FirstMatch(rs, l, 0) == Some(0);
    assert [l][1..] == [];
    assert Replay(rs, [l], 0, [], anyOrder, unexpected) == Finished([Record(p, true)], [0]);
    UnmetErrorsReportsUnmatched([Record(p, true)]);
  }

  /** The second expectation is left unmatched and reported with its index and pattern. */
  lemma OneLoggedTwoExpected(p: string, q: string, l: string, anyOrder: bool, unexpected: bool)
    requires Text.Contains(l, p)
    ensures Verify([Expectation(p), Expectation(q)], [l], anyOrder, unexpected) == [Unmet(1, q)]
  {
    var rs := [Expectation(p), Expectation(q)];
    var done := [Record(p, true), Expectation(q)];
    assert FirstMatch(rs, l, 0) == Some(0);
    assert [l][1..] == [];
    assert Replay(rs, [l], 0, [], anyOrder, unexpected) == Finished(done, [0]);
    assert done[..1] == [Record(p, true)];
    assert UnmetErrors(done[..1]) == [];
  }

  /**
   * Two expectations of the same pattern: the first line claims only the
   * first, and a second line lacking the pattern is reported as unexpected.
   */
  lemma SameExpectationTwice(p: string, l1: string, l2: string, anyOrder: bool)
    requires Text.Contains(l1, p) && !Text.Contains(l2, p)
    ensures Verify([Expectation(p), Expectation(p)], [l1, l2], anyOrder, false) == [UnexpectedLine(l2)]
  {
    var rs := [Expectation(p), Expectation(p)];
    var rs1 := [Record(p, true), Expectation(p)];
    var none: seq<nat> := [];
    assert FirstMatch(rs, l1, 0) == Some(0);
    assert Mark(rs, 0) == rs1;
    assert [l1, l2][1..] == [l2];
    ReplayClaimStep(rs, [l1, l2], 0, none, anyOrder, false, 0);
    assert FirstMatch(rs1, l2, 0) == None;
  }

  /** The line claims record k when k is the first record it can claim. */
  lemma FirstMatchIs(rs: seq<Record>, line: string, k: nat)
    requires k < |rs| && Satisfies(rs[k], line)
    requires forall j :: 0 <= j < k ==> !Satisfies(rs[j], line)
    ensures FirstMatch(rs, line, 0) == Some(k)
  {
  }

  /**
   * From the point where the records before i are matched and the rest are
   * not, lines that each contain the pattern of the record at their own
   * position finish the replay with every record matched.
   */
  lemma {:induction false} InOrderLinesClaimAll(rs: seq<Record>, lines: seq<string>, i: nat, pp: nat,
                                                picks: seq<nat>, anyOrder: bool, unexpected: bool)
    requires i + |lines| == |rs| && pp <= i
    requires forall j :: 0 <= j < |rs| ==> (rs[j].ok <==> j < i)
    requires forall k :: 0 <= k < |lines| ==> Text.Contains(lines[k], rs[i + k].Contains)
    ensures Replay(rs, lines, pp, picks, anyOrder, unexpected).Finished?
    ensures |Replay(rs, lines, pp, picks, anyOrder, unexpected).records| == |rs|
    ensures forall j :: 0 <= j < |rs| ==> Replay(rs, lines, pp, picks, anyOrder, unexpected).records[j].ok
    decreases |lines|
  {
    if |lines| > 0 {
      assert Text.Contains(lines[0], rs[i].Contains);
      FirstMatchIs(rs, lines[0], i);
      var rs1 := Mark(rs, i);
      forall k | 0 <= k < |lines[1..]| ensures Text.Contains(lines[1..][k], rs1[i + 1 + k].Contains) {
        assert lines[1..][k] == lines[k + 1];
      }
      InOrderLinesClaimAll(rs1, lines[1..], i + 1, i, picks + [i], anyOrder, unexpected);
    }
  }

  /**
   * Lines that each contain the expectation listed at their own position
   * satisfy Expect, in either mode.
   */
  lemma InOrderSucceeds(list: seq<Record>, lines: seq<string>, anyOrder: bool, unexpected: bool)
    requires |lines| == |list|
    requires forall k :: 0 <= k < |list| ==> !list[k].ok && Text.Contains(lines[k], list[k].Contains)
    ensures Verify(list, lines, anyOrder, unexpected) == []
  {
    InOrderLinesClaimAll(list, lines, 0, 0, [], anyOrder, unexpected);
    UnmetErrorsReportsUnmatched(Replay(list, lines, 0, [], anyOrder, unexpected).records);
  }

  /**
   * Expectations listed in another order than logged: the second line passes
   * over a pattern it lacks and claims the third expectation, so the third
   * line, claiming the second, goes backwards.
   */
  lemma WrongOrderFails(p1: string, p3: string, p2: string, l1: string, l2: string, l3: string,
                        unexpected: bool)
    requires Text.Contains(l1, p1)
    requires !Text.Contains(l2, p3) && Text.Contains(l2, p2)
    requires Text.Contains(l3, p3)
    ensures Verify([Expectation(p1), Expectation(p3), Expectation(p2)], [l1, l2, l3], false, unexpected)
         == [OutOfOrder(l3)]
  {
    var rs0 := [Expectation(p1), Expectation(p3), Expectation(p2)];
    var rs1 := [Record(p1, true), Expectation(p3), Expectation(p2)];
    var rs2 := [Record(p1, true), Expectation(p3), Record(p2, true)];
    var none: seq<nat> := [];
    var lines := [l1, l2, l3];
    assert FirstMatch(rs0, l1, 0) == Some(0) && Mark(rs0, 0) == rs1;
    assert FirstMatch(rs1, l2, 1) == Some(2) && Mark(rs1, 2) == rs2;
    assert FirstMatch(rs2, l3, 1) == Some(1);
    assert lines[1..] == [l2, l3] && lines[1..][1..] == [l3];
    ReplayClaimStep(rs0, lines, 0, none, false, unexpected, 0);
    ReplayClaimStep(rs1, lines[1..], 0, none + [0], false, unexpected, 2);
  }

  /**
   * Two lines claiming the two expectations in reverse order: accepted with
   * ExpectAnyOrder, reported out of order otherwise.
   */
  lemma ReversedPair(p1: string, p2: string, l1: string, l2: string, unexpected: bool)
    requires !Text.Contains(l1, p1) && Text.Contains(l1, p2) && Text.Contains(l2, p1)
    ensures Verify([Expectation(p1), Expectation(p2)], [l1, l2], true, unexpected) == []
    ensures Verify([Expectation(p1), Expectation(p2)], [l1, l2], false, unexpected) == [OutOfOrder(l2)]
  {
    var rs0 := [Expectation(p1), Expectation(p2)];
    var rs1 := [Expectation(p1), Record(p2, true)];
    var rs2 := [Record(p1, true), Record(p2, true)];
    var none: seq<nat> := [];
    var lines := [l1, l2];
    assert FirstMatch(rs0, l1, 1) == Some(1) && Mark(rs0, 1) == rs1;
    assert FirstMatch(rs1, l2, 0) == Some(0) && Mark(rs1, 0) == rs2;
    assert lines[1..] == [l2] && lines[1..][1..] == [];
    ReplayClaimStep(rs0, lines, 0, none, true, unexpected, 1);
    ReplayClaimStep(rs1, lines[1..], 1, none + [1], true, unexpected, 0);
    UnmetErrorsReportsUnmatched(rs2);
    ReplayClaimStep(rs0, lines, 0, none, false, unexpected, 1);
  }

  /** With ExpectUnexpected, a first line that matches nothing is passed over. */
  lemma TolerantSkipsUnmatchedLine(p: string, l1: string, l2: string, anyOrder: bool)
    requires !Text.Contains(l1, p) && Text.Contains(l2, p)
    ensures Verify([Expectation(p)], [l1, l2], anyOrder, true) == []
  {
    var none: seq<nat> := [];
    var lines := [l1, l2];
    assert FirstMatch([Expectation(p)], l1, 0) == None;
    assert FirstMatch([Expectation(p)], l2, 0) == Some(0);
    assert lines[1..] == [l2] && lines[1..][1..] == [];
    assert Replay([Expectation(p)], lines, 0, none, anyOrder, true)
        == Replay([Expectation(p)], lines[1..], 0, none, anyOrder, true);
    assert Replay([Expectation(p)], lines[1..], 0, none, anyOrder, true) == Finished([Record(p, true)], [0]);
    UnmetErrorsReportsUnmatched([Record(p, true)]);
  }

  /** With ExpectUnexpected, an expectation no line contains is still reported at the end. */
  lemma TolerantReportsUnmet(p: string, l1: string, l2: string, anyOrder: bool)
    requires !Text.Contains(l1, p) && !Text.Contains(l2, p)
    ensures Verify([Expectation(p)], [l1, l2], anyOrder, true) == [Unmet(0, p)]
  {
    var none: seq<nat> := [];
    var lines := [l1, l2];
    assert FirstMatch([Expectation(p)], l1, 0) == None;
    assert FirstMatch([Expectation(p)], l2, 0) == None;
    assert lines[1..] == [l2] && lines[1..][1..] == [];
    assert Replay([Expectation(p)], lines[1..][1..], 0, none, anyOrder, true) == Finished([Expectation(p)], none);
    assert Replay([Expectation(p)], lines, 0, none, anyOrder, true)
        == Replay([Expectation(p)], lines[1..][1..], 0, none, anyOrder, true);
    assert [Expectation(p)][..0] == [];
    assert UnmetErrors([Expectation(p)]) == [Unmet(0, p)];
  }

  /** newRecords: a private copy, so that matching never touches the caller's records. */
  method NewRecords(a: array<Record>) returns (r: array<Record>)
    ensures fresh(r) && r[..] == a[..]
  {
    r := new Record[a.Length];
    forall k | 0 <= k < a.Length {
      r[k] := a[k];
    }
  }

  /**
   * records.Contains: claims the first unmatched record whose pattern the
   * line contains, setting ok on it and on no other record.
   */
  method Contains(rs: array<Record>, line: string) returns (k: nat, ok: bool)
    modifies rs
    ensures ok <==> FirstMatch(old(rs[..]), line, 0).Some?
    ensures ok ==> FirstMatch(old(rs[..]), line, 0) == Some(k) && rs[..] == Mark(old(rs[..]), k)
    ensures !ok ==> k == 0 && rs[..] == old(rs[..])
  {
    k := 0;
    while k < rs.Length
      invariant 0 <= k <= rs.Length
      invariant rs[..] == old(rs[..])
      invariant FirstMatch(rs[..], line, 0) == FirstMatch(rs[..], line, k)
    {
      if rs[k].ok {
        k := k + 1;
        continue;
      }
      ghost var before := rs[..];
      rs[k] := rs[k].(ok := Text.Contains(line, rs[k].Contains));
      if rs[k].ok {
        return k, true;
      }
      assert rs[..] == before;
      k := k + 1;
    }
    return 0, false;
  }

  /** records.Err, accumulating one error per unmatched record. */
  method Err(rs: array<Record>) returns (errs: seq<Mismatch>)
    ensures errs == UnmetErrors(rs[..])
  {
    errs := [];
    for k := 0 to rs.Length
      invariant errs == UnmetErrors(rs[..k])
    {
      assert rs[..k + 1][..k] == rs[..k];
      if !rs[k].ok {
        errs := errs + [Unmet(k, rs[k].Contains)];
      }
    }
    assert rs[..rs.Length] == rs[..];
  }

  /** The in-memory recorder a logger writes to in tests. */
  class Recorder {
    /** Match the expectations in any order rather than in the order they were listed. */
    var ExpectAnyOrder: bool
    /** Skip lines that match no expectation rather than failing on them. */
    var ExpectUnexpected: bool
    /** Everything written so far. */
    var buf: string

    /** NewRecorder: an empty buffer, ordered and strict. */
    constructor ()
      ensures buf == [] && !ExpectAnyOrder && !ExpectUnexpected
    {
      buf := [];
      ExpectAnyOrder := false;
      ExpectUnexpected := false;
    }

    /** io.Writer: appends p and reports all of it written. */
    method Write(p: string) returns (n: nat)
      modifies this`buf
      ensures buf == old(buf) + p && n == |p|
    {
      buf := buf + p;
      n := |p|;
    }

    /** Matches the recorded lines against the expectations in list. */
    method Expect(list: array<Record>) returns (errs: seq<Mismatch>)
      ensures errs == Verify(list[..], Text.ScanLines(buf), ExpectAnyOrder, ExpectUnexpected)
    {
      var lines := Text.ScanLines(buf);
      var rs := NewRecords(list);
      var pp: nat, i := 0, 0;
      ghost var picks: seq<nat> := [];
      while i < |lines|
        invariant 0 <= i <= |lines|
        invariant rs.Length == list.Length
        invariant Replay(list[..], lines, 0, [], ExpectAnyOrder, ExpectUnexpected)
               == Replay(rs[..], lines[i..], pp, picks, ExpectAnyOrder, ExpectUnexpected)
      {
        assert lines[i..][0] == lines[i] && lines[i..][1..] == lines[i + 1..];
        var cp, ok := Contains(rs, lines[i]);
        if !ok {
          if !ExpectUnexpected {
            return [UnexpectedLine(lines[i])];
          }
          i := i + 1;
          continue;
        }
        if cp < pp && !ExpectAnyOrder {
          return [OutOfOrder(lines[i])];
        }
        pp, picks, i := cp, picks + [cp], i + 1;
      }
      errs := Err(rs);
    }
  }
}
