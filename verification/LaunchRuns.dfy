/** Every run of acceptances, conclusions and restarts over one history of launches. */
module LaunchRuns {
  import opened Dispatch
  import opened Registry

  datatype Event = Begin(record: Record) | End(digest: string, conclusion: Conclusion, finishedAt: nat) | Restart

  /** The launches accepted that nothing has ended yet, and every record as it ended. */
  datatype Books = Books(open: set<Record>, ended: set<Record>)

  /** What the process knows, and what its file says: a write that failed may have left the file ahead. */
  datatype Page = Page(memory: Books, filed: Books)

  const BLANK := Books({}, {})

  /** A history holds every open launch of these books, and of the ended ones only what the books say. */
  ghost predicate Kept(b: Books, records: seq<Record>) {
    && (forall r :: r in b.open ==> !r.Terminal())
    && (forall r :: r in records && !r.Terminal() <==> r in b.open)
    && (forall r :: r in records && r.Terminal() ==> r in b.ended)
  }

  /** A start says of everything still open that its report never came. */
  function AllEnded(b: Books): Books { Books({}, b.ended + set r | r in b.open :: Requalified(r)) }

  ghost predicate Happened(e: Event, before: Books, after: Books) {
    match e
    case Begin(r) => after == Books(before.open + {r}, before.ended)
    case End(digest, conclusion, finishedAt) =>
      exists r :: r in before.open && r.digest == digest
        && after == Books(before.open - {r}, before.ended + {Concluded(r, conclusion, finishedAt)})
    case Restart => after == AllEnded(before)
  }

  /** One event and its answer: what is answered done is in the file, and what is not may be there. */
  ghost predicate Turn(e: Event, a: Answer, p: Page, q: Page) {
    match a
    case Done => q.memory == q.filed && Happened(e, if e.Restart? then p.filed else p.memory, q.memory)
    case Refused => q == p
    case NotWritten => q.memory == p.memory && (q.filed == p.filed || Happened(e, if e.Restart? then p.filed else p.memory, q.filed))
  }

  lemma BegunIsKept(b: Books, before: seq<Record>, after: seq<Record>, begun: Record)
    requires Kept(b, before) && OnlyOpens(before, after, begun) && !begun.Terminal()
    ensures Kept(Books(b.open + {begun}, b.ended), after)
  {
    forall r: Record ensures r in after && !r.Terminal() <==> r in b.open + {begun} {
      assert r in after <==> r in multiset(after);
      assert r in before <==> r in multiset(before);
    }
    forall r: Record | r in after && r.Terminal() ensures r in b.ended {
      assert r in multiset(after) && r in multiset(before) && r in before;
    }
  }

  lemma ClosedIsKept(b: Books, before: seq<Record>, after: seq<Record>, closed: Record, ended: Record)
    requires Kept(b, before) && OnlyCloses(before, after, closed, ended) && OpenOnce(before)
    requires closed in before && !closed.Terminal() && ended.Terminal()
    ensures Kept(Books(b.open - {closed}, b.ended + {ended}), after)
  {
    OpenOnceIff(before);
    assert closed in multiset(before);
    forall r: Record ensures r in after && !r.Terminal() <==> r in b.open - {closed} {
      assert r in after <==> r in multiset(after);
      assert r in before <==> r in multiset(before);
    }
    forall r: Record | r in after && r.Terminal() ensures r in b.ended + {ended} {
      assert r in multiset(after);
      assert r in multiset(before) ==> r in before;
    }
  }

  lemma RequalifiedIsKept(b: Books, records: seq<Record>)
    requires Kept(b, records)
    ensures Kept(AllEnded(b), AllRequalified(records))
  {
    var after := AllRequalified(records);
    forall r | r in after ensures r.Terminal() && r in AllEnded(b).ended {
      var i :| 0 <= i < |after| && after[i] == r;
      assert records[i] in records;
    }
  }

  method Act(s: Store, e: Event, ghost p: Page) returns (a: Answer, ghost q: Page)
    requires s.Valid() && Kept(p.memory, s.records) && Kept(p.filed, s.file)
    modifies s
    ensures s.Valid() && Kept(q.memory, s.records) && Kept(q.filed, s.file) && Turn(e, a, p, q)
    ensures a.Done? && !e.Restart? ==> forall m: string :: TerminalsOf(s.records, m) <= MAX_RECORDS_PER_MACHINE
  {
    match e {
      case Begin(record) => a, q := ActBegin(s, record, p);
      case End(digest, conclusion, finishedAt) => a, q := ActEnd(s, digest, conclusion, finishedAt, p);
      case Restart =>
        RequalifiedIsKept(p.filed, s.file);
        ghost var held := s.file;
        a := s.Open();
        var after := AllEnded(p.filed);
        q := if a.Done? then Page(after, after) else if s.file == held then p else Page(p.memory, after);
    }
  }

  method ActBegin(s: Store, record: Record, ghost p: Page) returns (a: Answer, ghost q: Page)
    requires s.Valid() && Kept(p.memory, s.records) && Kept(p.filed, s.file)
    modifies s
    ensures s.Valid() && Kept(q.memory, s.records) && Kept(q.filed, s.file) && Turn(Begin(record), a, p, q)
    ensures a.Done? ==> forall m: string :: TerminalsOf(s.records, m) <= MAX_RECORDS_PER_MACHINE
  {
    ghost var known, held := s.records, s.file;
    a := s.Accept(record);
    q := p;
    if s.file != held || a.Done? {
      var after := Books(p.memory.open + {record}, p.memory.ended);
      BegunIsKept(p.memory, known, s.file, record);
      q := if a.Done? then Page(after, after) else Page(p.memory, after);
    }
  }

  method ActEnd(s: Store, digest: string, conclusion: Conclusion, finishedAt: nat, ghost p: Page) returns (a: Answer, ghost q: Page)
    requires s.Valid() && Kept(p.memory, s.records) && Kept(p.filed, s.file)
    modifies s
    ensures s.Valid() && Kept(q.memory, s.records) && Kept(q.filed, s.file) && Turn(End(digest, conclusion, finishedAt), a, p, q)
    ensures a.Done? ==> forall m: string :: TerminalsOf(s.records, m) <= MAX_RECORDS_PER_MACHINE
  {
    ghost var known, held := s.records, s.file;
    a := s.Conclude(digest, conclusion, finishedAt);
    q := p;
    if s.file != held || a.Done? {
      ghost var i :| FirstWith(known, digest, i) && IsConclusion(known, s.file, i, conclusion, finishedAt);
      ghost var after := Books(p.memory.open - {known[i]}, p.memory.ended + {Concluded(known[i], conclusion, finishedAt)});
      ConclusionIsKept(p.memory, known, s.file, i, digest, conclusion, finishedAt);
      q := if a.Done? then Page(after, after) else Page(p.memory, after);
    }
  }

  lemma ConclusionIsKept(b: Books, before: seq<Record>, after: seq<Record>, i: nat, digest: string, conclusion: Conclusion, finishedAt: nat)
    requires Kept(b, before) && OpenOnce(before)
    requires FirstWith(before, digest, i) && IsConclusion(before, after, i, conclusion, finishedAt)
    ensures var books := Books(b.open - {before[i]}, b.ended + {Concluded(before[i], conclusion, finishedAt)});
            Kept(books, after) && Happened(End(digest, conclusion, finishedAt), b, books)
    ensures forall m: string :: TerminalsOf(after, m) <= MAX_RECORDS_PER_MACHINE
  {
    ClosedIsKept(b, before, after, before[i], Concluded(before[i], conclusion, finishedAt));
    assert before[i] in b.open;
  }

  ghost predicate Turns(events: seq<Event>, answers: seq<Answer>, pages: seq<Page>) {
    && |answers| == |events| && |pages| == |events| + 1 && pages[0] == Page(BLANK, BLANK)
    && forall n :: 0 <= n < |events| ==> Turn(events[n], answers[n], pages[n], pages[n + 1])
  }

  /** A launch that was accepted, with no conclusion of its digest and no start answered done since. */
  ghost predicate Unfinished(events: seq<Event>, answers: seq<Answer>, m: nat)
    requires m < |events| == |answers|
  {
    && events[m].Begin? && answers[m].Done?
    && forall k :: m < k < |events| && answers[k].Done? ==> !events[k].Restart? && (events[k].End? ==> events[k].digest != events[m].record.digest)
  }

  /** What a launch may be held as once it ended: as it was accepted, with a conclusion that was asked for, or the start's own. */
  ghost predicate EndedAsAsked(events: seq<Event>, r: Record) {
    exists m :: 0 <= m < |events| && events[m].Begin?
      && (r == Requalified(events[m].record) || AskedOf(events, events[m].record, r))
  }

  ghost predicate AskedOf(events: seq<Event>, begun: Record, r: Record) {
    exists k :: 0 <= k < |events| && events[k].End? && events[k].digest == begun.digest
      && r == Concluded(begun, events[k].conclusion, events[k].finishedAt)
  }

  ghost predicate Stems(events: seq<Event>, b: Books) {
    && (forall r :: r in b.open ==> exists m :: 0 <= m < |events| && events[m] == Begin(r))
    && (forall r :: r in b.ended ==> EndedAsAsked(events, r))
  }

  lemma {:induction false} AcceptedStaysOpen(events: seq<Event>, answers: seq<Answer>, pages: seq<Page>, m: nat, n: nat)
    requires Turns(events, answers, pages) && m < n <= |events| && Unfinished(events, answers, m)
    ensures events[m].record in pages[n].memory.open
    decreases n
  {
    assert Turn(events[n - 1], answers[n - 1], pages[n - 1], pages[n]);
    if n - 1 > m {
      AcceptedStaysOpen(events, answers, pages, m, n - 1);
    }
  }

  lemma EndingStems(events: seq<Event>, k: nat, before: Books, after: Books)
    requires k < |events| && Stems(events, before) && Happened(events[k], before, after)
    ensures Stems(events, after)
  {
    forall r | r in after.ended && r !in before.ended ensures EndedAsAsked(events, r) {
      match events[k] {
        case End(digest, conclusion, finishedAt) =>
          var begun :| begun in before.open && begun.digest == digest
            && after == Books(before.open - {begun}, before.ended + {Concluded(begun, conclusion, finishedAt)});
          var m :| 0 <= m < |events| && events[m] == Begin(begun);
          assert AskedOf(events, begun, r);
        case Restart =>
          var begun :| begun in before.open && r == Requalified(begun);
          var m :| 0 <= m < |events| && events[m] == Begin(begun);
          assert events[m].record == begun;
      }
    }
  }

  lemma {:induction false} BooksStem(events: seq<Event>, answers: seq<Answer>, pages: seq<Page>, n: nat)
    requires Turns(events, answers, pages) && n <= |events|
    ensures Stems(events, pages[n].memory) && Stems(events, pages[n].filed)
    decreases n
  {
    if n > 0 {
      BooksStem(events, answers, pages, n - 1);
      var e, p, q := events[n - 1], pages[n - 1], pages[n];
      assert Turn(e, answers[n - 1], p, q);
      var from := if e.Restart? then p.filed else p.memory;
      if q.filed != p.filed && Happened(e, from, q.filed) {
        EndingStems(events, n - 1, from, q.filed);
      }
      if answers[n - 1].Done? {
        EndingStems(events, n - 1, from, q.memory);
      }
    }
  }

  /**
   * Every run from an empty history, whatever writes fail in it: a launch that was accepted is held
   * open until something is answered to have ended it, an ended record is held only as it ended, the
   * list is in order, and each acceptance and each conclusion leaves every machine within its bound.
   */
  method Run(s: Store, events: seq<Event>) returns (answers: seq<Answer>)
    requires s.Valid() && s.records == [] && s.file == []
    modifies s
    ensures s.Valid() && |answers| == |events|
    ensures forall m :: 0 <= m < |events| && Unfinished(events, answers, m) ==> events[m].record in s.records
    ensures forall r :: r in s.records && !r.Terminal() ==> exists m :: 0 <= m < |events| && events[m] == Begin(r)
    ensures forall r :: r in s.records && r.Terminal() ==> EndedAsAsked(events, r)
    ensures events != [] && answers[|events| - 1].Done? && !events[|events| - 1].Restart? ==>
              forall m: string :: TerminalsOf(s.records, m) <= MAX_RECORDS_PER_MACHINE
  {
    answers := [];
    ghost var pages := [Page(BLANK, BLANK)];
    for n := 0 to |events|
      invariant s.Valid() && |answers| == n && Turns(events[..n], answers, pages)
      invariant Kept(pages[n].memory, s.records) && Kept(pages[n].filed, s.file)
      invariant n > 0 && answers[n - 1].Done? && !events[n - 1].Restart? ==>
                  forall m: string :: TerminalsOf(s.records, m) <= MAX_RECORDS_PER_MACHINE
    {
      var answer, page := Act(s, events[n], pages[n]);
      answers, pages := answers + [answer], pages + [page];
    }
    assert events[..|events|] == events;
    BooksStem(events, answers, pages, |events|);
    forall m | 0 <= m < |events| && Unfinished(events, answers, m) ensures events[m].record in s.records {
      AcceptedStaysOpen(events, answers, pages, m, |events|);
    }
  }
}
