/**
 Reading a Run's event log page by page while it grows at its end and retention trims its start.
 The read takes two snapshots: the Run first, its events a little later.
 */
module EventLog {
  import opened Wrappers
  import opened Budgets
  import opened Records
  import opened Evolution
  import opened Kernel
  import opened KernelEvolution

  datatype Page = Page(events: seq<Event>, nextAfter: Option<nat>)

  /** One page of history. `seen` is the counter of the first snapshot, `r` the Run at the second. */
  function History(seen: nat, r: Run, after: int, limit: int): Result<Page> {
    if after < 0 || !(1 <= limit <= 1000) then Err(InvalidArgument)
    else if r.events == [] && after < seen then Err(EventCursorExpired(seen))
    else if r.events != [] && after < r.events[0].seqNo - 1 then Err(EventCursorExpired(r.events[0].seqNo - 1))
    else if after > r.eventSeq then Err(FutureEventCursor(r.eventSeq))
    else
      Ok(PageOf(Later(r.events, after), limit))
  }

  function PageOf(rows: seq<Event>, limit: nat): Page
    requires limit > 0
  {
    if |rows| > limit then Page(rows[..limit], Some(rows[limit - 1].seqNo)) else Page(rows, None)
  }

  /** The entries after a cursor, oldest first. */
  function Later(events: seq<Event>, after: int): seq<Event> {
    if events == [] then []
    else if events[0].seqNo > after then [events[0]] + Later(events[1..], after)
    else Later(events[1..], after)
  }

  lemma {:induction false} LaterIsSuffix(events: seq<Event>, first: int, after: int)
    requires forall i :: 0 <= i < |events| ==> events[i].seqNo == first + i
    ensures after < first ==> Later(events, after) == events
    ensures first <= after + 1 <= first + |events| ==> Later(events, after) == events[after + 1 - first..]
    ensures first + |events| <= after + 1 ==> Later(events, after) == []
  {
    if events != [] {
      LaterIsSuffix(events[1..], first + 1, after);
      if first <= after && after + 1 <= first + |events| {
        assert events[after + 1 - first..] == events[1..][after + 1 - (first + 1)..];
      }
    }
  }

  /** The page continues the cursor without a gap. */
  predicate GapFree(page: Page, after: nat) {
    forall i :: 0 <= i < |page.events| ==> page.events[i].seqNo == after + 1 + i
  }

  lemma PageFacts(rest: seq<Event>, after: nat, limit: nat)
    requires limit > 0 && forall i :: 0 <= i < |rest| ==> rest[i].seqNo == after + 1 + i
    ensures var page := PageOf(rest, limit);
      && GapFree(page, after) && page.events <= rest && |page.events| == (if |rest| < limit then |rest| else limit)
      && (page.nextAfter.Some? <==> |page.events| < |rest|)
      && (page.nextAfter.Some? ==> page.nextAfter.value == after + |page.events|)
  {
  }

  /** What the log still holds after the cursor. */
  function Rest(r: Run, after: nat): seq<Event>
    requires LogOk(r)
  {
    r.events[if after < Pruned(r) || r.eventSeq < after then |r.events| else after - Pruned(r)..]
  }

  lemma HistoryIsPage(seen: nat, r: Run, after: nat, limit: nat)
    requires LogOk(r) && 1 <= limit <= 1000 && History(seen, r, after, limit).Ok?
    ensures History(seen, r, after, limit) == Ok(PageOf(Rest(r, after), limit))
  {
    LaterIsSuffix(r.events, Pruned(r) + 1, after);
    hide Later, PageOf;
  }

  /**
   What a successful read returns: the next events in order, as many as fit, and a continuation exactly
   when more remain. It fails exactly when the cursor lies before what retention left, or ahead of the log.
   */
  lemma HistoryIsNextPage(seen: nat, r: Run, after: nat, limit: nat)
    requires LogOk(r) && seen <= r.eventSeq && 1 <= limit <= 1000
    ensures var h := History(seen, r, after, limit);
      && (h.Err? <==> after > r.eventSeq || after < (if r.events == [] then seen else Pruned(r)))
      && (h.Ok? ==>
            var page := h.value;
            && GapFree(page, after)
            && page.events <= r.events[if Pruned(r) <= after then after - Pruned(r) else |r.events|..]
            && (r.events != [] || after == r.eventSeq ==>
                |page.events| == if r.eventSeq - after < limit then r.eventSeq - after else limit)
            && (page.nextAfter.Some? <==> after + |page.events| < r.eventSeq && r.events != [])
            && (page.nextAfter.Some? ==> page.nextAfter.value == after + |page.events|))
  {
    if History(seen, r, after, limit).Ok? {
      HistoryIsPage(seen, r, after, limit);
      PageFacts(Rest(r, after), after, limit);
      hide History;
    }
    hide PageOf, GapFree, Later;
  }

  /** The one silent gap: everything was trimmed between the two snapshots, and more than that had been written. */
  lemma GapIffTrimmedBetweenSnapshots(seen: nat, r: Run, after: nat, limit: nat)
    requires LogOk(r) && seen <= r.eventSeq && 1 <= limit <= 1000 && History(seen, r, after, limit).Ok?
    ensures var page := History(seen, r, after, limit).value;
      page.nextAfter.None? && after + |page.events| < r.eventSeq <==> r.events == [] && seen <= after < r.eventSeq
  {
    HistoryIsNextPage(seen, r, after, limit);
  }

  /** Where nothing is trimmed, every Run's events carry exactly the numbers 1 to its counter. */
  lemma {:induction false} EveryLogIsComplete(txs: seq<Tx>, r: Id)
    requires r in Execute(EMPTY_STORE, txs).runs
    ensures LogOk(Execute(EMPTY_STORE, txs).runs[r]) && Pruned(Execute(EMPTY_STORE, txs).runs[r]) == 0
  {
    if txs != [] {
      hide Apply, Sound, ActionsEvolve, JobsEvolve, BudgetEvolves;
      var before, tx := Execute(EMPTY_STORE, txs[..|txs| - 1]), txs[|txs| - 1];
      ReachableSound(txs[..|txs| - 1]);
      if r in before.runs {
        EveryLogIsComplete(txs[..|txs| - 1], r);
        StepRun(before, tx, r);
      } else {
        StepParts(before, tx);
        assert NewRun(before, Apply(before, tx), r);
      }
    }
  }

  // ---- A reader beside the kernel ----

  /** `written`: everything that was ever appended. `got`: what the reader has received since cursor `start`. */
  datatype Reader = Reader(
    store: Store, run: Id, written: seq<Event>, seen: Option<nat>, start: nat, cursor: nat, got: seq<Event>, lost: bool)

  datatype Step =
    | Transact(tx: Tx)
    | Trim(keep: nat)         // retention drops the oldest events
    | Glance                  // the read's first snapshot
    | Fetch(limit: nat)       // its second, and the page

  function Tail<T>(all: seq<T>, keep: nat): seq<T> {
    if keep < |all| then all[|all| - keep..] else all
  }

  ghost function Next(w: Reader, step: Step): Reader
    requires w.run in w.store.runs && w.run in NextStore(w, step).runs
  {
    var r := w.store.runs[w.run];
    var r' := NextStore(w, step).runs[w.run];
    var w' := w.(store := NextStore(w, step));
    match step
    case Transact(_) =>
      w'.(written := if |r.events| <= |r'.events| then w.written + r'.events[|r.events|..] else w.written)
    case Trim(_) => w'
    case Glance => w'.(seen := Some(r.eventSeq))
    case Fetch(limit) =>
      if w.seen.None? then w'
      else
        match History(w.seen.value, r, w.cursor, limit)
        case Err(_) => w'.(lost := true, seen := None)
        case Ok(page) => w'.(got := w.got + page.events, cursor := w.cursor + |page.events|, seen := None)
  }

  ghost function NextStore(w: Reader, step: Step): Store
    requires w.run in w.store.runs
  {
    match step
    case Transact(tx) => Apply(w.store, tx)
    case Trim(keep) => w.store.WithRun(w.run, w.store.runs[w.run].(events := Tail(w.store.runs[w.run].events, keep)))
    case _ => w.store
  }

  ghost predicate ReaderOk(w: Reader) {
    && Sound(w.store) && w.run in w.store.runs
    && var r := w.store.runs[w.run];
       && LogOk(r) && |w.written| == r.eventSeq
       && r.events == w.written[Pruned(r)..]
       && (forall i :: 0 <= i < |w.written| ==> w.written[i].seqNo == i + 1)
       && (w.seen.Some? ==> w.seen.value <= r.eventSeq)
       && w.start <= w.cursor <= r.eventSeq && w.got == w.written[w.start..w.cursor]
  }

  lemma TransactKeeps(w: Reader, tx: Tx)
    requires ReaderOk(w)
    ensures w.run in NextStore(w, Transact(tx)).runs && ReaderOk(Next(w, Transact(tx)))
  {
    hide Apply, Sound, BudgetEvolves;
    StepRun(w.store, tx, w.run);
    var r, r' := w.store.runs[w.run], Apply(w.store, tx).runs[w.run];
    Appended(w.written, r, r');
  }

  lemma Appended(written: seq<Event>, r: Run, r': Run)
    requires LogOk(r) && LogOk(r') && LogExtends(r, r') && |written| == r.eventSeq && r.events == written[Pruned(r)..]
    requires forall i :: 0 <= i < |written| ==> written[i].seqNo == i + 1
    ensures var written' := written + r'.events[|r.events|..];
      && |written'| == r'.eventSeq && r'.events == written'[Pruned(r')..]
      && forall i :: 0 <= i < |written'| ==> written'[i].seqNo == i + 1
  {
    assert r'.events == r.events + r'.events[|r.events|..];
  }

  lemma TrimKeeps(w: Reader, keep: nat)
    requires ReaderOk(w)
    ensures ReaderOk(Next(w, Trim(keep)))
  {
    hide ParentOk, ActionRefsOk, RequestRefsOk;
    var w' := Next(w, Trim(keep));
    TrimSound(w.store, w'.store, w.run);
  }

  lemma TrimSound(s: Store, s': Store, run: Id)
    requires Sound(s) && run in s.runs && run in s'.runs && s' == s.(runs := s.runs[run := s'.runs[run]])
    requires s'.runs[run] == s.runs[run].(events := s'.runs[run].events)
    ensures Sound(s')
  {
    forall r | r in s'.runs ensures ParentOk(s', r) { assert ParentOk(s, r); }
    forall a | a in s'.actions ensures ActionRefsOk(s', a) { assert ActionRefsOk(s, a); }
    forall q | q in s'.requests ensures RequestRefsOk(s', q) { assert RequestRefsOk(s, q); }
  }

  /** A page is the next stretch of what was written. */
  lemma PageIsWritten(seen: nat, r: Run, after: nat, limit: nat, written: seq<Event>)
    requires LogOk(r) && |written| == r.eventSeq && r.events == written[Pruned(r)..]
    requires seen <= r.eventSeq && after <= r.eventSeq && History(seen, r, after, limit).Ok?
    ensures var page := History(seen, r, after, limit).value.events;
      after + |page| <= r.eventSeq && page == written[after..after + |page|]
  {
    HistoryIsNextPage(seen, r, after, limit);
    var page := History(seen, r, after, limit).value.events;
    if page != [] {
      assert r.events[after - Pruned(r)..] == written[after..];
      assert page == written[after..][..|page|];
    }
  }

  lemma FetchKeeps(w: Reader, limit: nat)
    requires ReaderOk(w)
    ensures ReaderOk(Next(w, Fetch(limit)))
  {
    hide Sound, LogOk, Apply;
    var r := w.store.runs[w.run];
    if w.seen.Some? && History(w.seen.value, r, w.cursor, limit).Ok? {
      PageIsWritten(w.seen.value, r, w.cursor, limit, w.written);
      hide History;
      var page := History(w.seen.value, r, w.cursor, limit).value.events;
      Stretch(w.written, w.start, w.cursor, w.cursor + |page|);
    }
  }

  lemma Stretch<T>(all: seq<T>, a: nat, b: nat, c: nat)
    requires a <= b <= c <= |all|
    ensures all[a..b] + all[b..c] == all[a..c]
  {
  }

  lemma StepKeeps(w: Reader, step: Step)
    requires ReaderOk(w)
    ensures w.run in w.store.runs && w.run in NextStore(w, step).runs && ReaderOk(Next(w, step))
  {
    hide Apply, Sound;
    match step
    case Transact(tx) => TransactKeeps(w, tx);
    case Trim(keep) => TrimKeeps(w, keep);
    case Glance =>
    case Fetch(limit) => FetchKeeps(w, limit);
  }

  /** The reader after any interleaving, from the moment it opens a Run at a cursor. */
  ghost function Reading(w0: Reader, steps: seq<Step>): (w: Reader)
    requires ReaderOk(w0)
    ensures ReaderOk(w) && w.start == w0.start
  {
    hide ReaderOk, Apply;
    if steps == [] then w0
    else
      var before, step := Reading(w0, steps[..|steps| - 1]), steps[|steps| - 1];
      StepKeeps(before, step);
      Next(before, step)
  }

  /**
   However appends, retention and page reads interleave, what the reader has received from cursor `start`
   on is exactly the events written after it, each once and in order, up to its cursor.
   */
  lemma ReaderSeesEachEventOnce(w0: Reader, steps: seq<Step>)
    requires ReaderOk(w0)
    ensures var w := Reading(w0, steps);
      && w.start == w0.start <= w.cursor <= |w.written| && w.got == w.written[w.start..w.cursor]
      && forall i :: 0 <= i < |w.got| ==> w.got[i].seqNo == w.start + 1 + i
  {
    hide Reading, Sound;
  }
}
