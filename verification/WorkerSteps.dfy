/** Every step of a worker keeps the pipeline's invariant. */
module WorkerSteps {
  import opened Base
  import opened Providers
  import opened Content
  import opened Tables
  import opened Services
  import opened Pipeline
  import opened Invariant

  /** What the invariant says of the job in a worker's hands. */
  lemma HeldIsOk(s: State, w: nat)
    requires TalliesOk(s) && CarryOk(s) && Busy(s, w)
    ensures HeldOk(s.workers[w], Tallied(s, w)) && Bounded(Tallied(s, w)) && PhaseOk(s.workers[w])
  {}

  lemma WrittenIsOk(phase: Phase, t: Tally)
    requires phase.Sent? && HeldOk(phase, t) && Bounded(t)
    ensures HeldOk(Wrote(phase.job, Succeeded(phase.id)), t) && PhaseOk(Wrote(phase.job, Succeeded(phase.id)))
    ensures Bounded(t.(unrecorded := t.unrecorded + 1))
  {}

  /** An attempt that goes on to its next read, or ends with an error. */
  lemma ReadingKeepsInv(s: State, w: nat, phase: Phase)
    requires Inv(s) && Busy(s, w) && BeforeCall(s.workers[w]) && !phase.Idle? && phase.job == s.workers[w].job
    requires (BeforeCall(phase) || phase.Failing?) && PhaseOk(phase)
    ensures Inv(Moved(s, w, phase, Tallied(s, w)))
  {
    HeldIsOk(s, w);
    MoveKeepsInv(s, w, phase, Tallied(s, w));
  }

  lemma ReadAccountKeepsInv(s: State, w: nat)
    requires Inv(s) && Busy(s, w) && s.workers[w].Popped?
    ensures Inv(ReadAccountStep(s, w))
  {
    var phase, k := s.workers[w], s.workers[w].job.At();
    assert HeldOk(phase, s.past.Of(k));
    var account := FetchAccount(s.db, k);
    if account.None? {
      DropKeepsInv(s, w, false, Tallied(s, w));
    } else if !account.value.authorized {
      ReadingKeepsInv(s, w, Failing(phase.job, Unauthorized));
    } else {
      ReadingKeepsInv(s, w, AccountRead(phase.job, account.value));
    }
  }

  lemma ReadServiceKeepsInv(s: State, w: nat)
    requires Inv(s) && Busy(s, w) && s.workers[w].AccountRead?
    ensures Inv(ReadServiceStep(s, w))
  {
    var phase := s.workers[w];
    var config := FetchServiceConfiguration(s.db.catalog, phase.account.provider);
    ServiceErrorsAreOthers(s.db.catalog, phase.account.provider);
    HeldIsOk(s, w);
    if config.Ok? {
      ReadingKeepsInv(s, w, ServiceRead(phase.job, phase.account, config.value));
    } else {
      ReadingKeepsInv(s, w, Failing(phase.job, config.error));
    }
  }

  lemma ServiceErrorsAreOthers(c: Catalog, provider: string)
    ensures FetchServiceConfiguration(c, provider).Err? ==> FetchServiceConfiguration(c, provider).error != UnsupportedProvider
  {}

  lemma ReadTextKeepsInv(s: State, w: nat)
    requires Inv(s) && Busy(s, w) && s.workers[w].ServiceRead?
    ensures Inv(ReadTextStep(s, w))
  {
    var phase := s.workers[w];
    HeldIsOk(s, w);
    match PublishText(s.db.versions, s.db.nextVersion, phase.job.post, phase.job.account)
    case Err(error) => ReadingKeepsInv(s, w, Failing(phase.job, error));
    case Ok(text) => ReadingKeepsInv(s, w, TextRead(phase.job, phase.account, phase.config, text));
  }

  /** The connectors' empty-text, empty-page-id and missing-connector refusals cannot
      happen to a worker that reached the call. */
  lemma OnlyTokenCanBeRefused(phase: Phase)
    requires phase.TextRead? && PhaseOk(phase)
    ensures Prepared(phase).Ok? || Prepared(phase).error == Unauthorized
  {
    assert Trim(phase.text) == phase.text;
    OnlyTokenRefusalsRemain(phase.account, phase.config, phase.text);
  }

  lemma AnsweredIsOk(phase: Phase, outcome: Outcome, t: Tally)
    requires phase.TextRead? && PhaseOk(phase) && HeldOk(phase, t) && Bounded(t) && Expected(phase, outcome)
    ensures HeldOk(Answered(phase, outcome), Called(phase, outcome, t)) && Bounded(Called(phase, outcome, t))
    ensures PhaseOk(Answered(phase, outcome)) && Answered(phase, outcome).job == phase.job
  {
    OnlyTokenCanBeRefused(phase);
  }

  lemma CallKeepsInv(s: State, w: nat, outcome: Outcome)
    requires Inv(s) && Busy(s, w) && s.workers[w].TextRead? && Expected(s.workers[w], outcome)
    ensures Inv(CallStep(s, w, outcome))
  {
    AnsweredIsOk(s.workers[w], outcome, Tallied(s, w));
    MoveKeepsInv(s, w, Answered(s.workers[w], outcome), Called(s.workers[w], outcome, Tallied(s, w)));
  }

  lemma FoundRowKeepsInv(s: State, w: nat)
    requires Inv(s) && Busy(s, w) && s.workers[w].Sent?
    ensures Inv(Moved(s, w, Wrote(s.workers[w].job, Succeeded(s.workers[w].id)), Tallied(s, w)))
  {
    HeldIsOk(s, w);
    WrittenIsOk(s.workers[w], Tallied(s, w));
    MoveKeepsInv(s, w, Wrote(s.workers[w].job, Succeeded(s.workers[w].id)), Tallied(s, w));
  }

  lemma MissingRowKeepsInv(s: State, w: nat, t: Tally)
    requires Inv(s) && Busy(s, w) && s.workers[w].Sent? && !HasRow(s.db.rows, s.workers[w].job.At())
    requires t == Tallied(s, w).(unrecorded := Tallied(s, w).unrecorded + 1)
    ensures Inv(Dropped(s, w, false, t))
  {
    HeldIsOk(s, w);
    WrittenIsOk(s.workers[w], Tallied(s, w));
    DropKeepsInv(s, w, false, t);
  }

  lemma WriteRowIs(s: State, w: nat)
    requires Busy(s, w) && s.workers[w].Sent?
    ensures var t := Tallied(s, w);
            WriteRowStep(s, w) ==
              if HasRow(s.db.rows, s.workers[w].job.At())
              then Moved(s, w, Wrote(s.workers[w].job, Succeeded(s.workers[w].id)), t)
              else Dropped(s, w, false, t.(unrecorded := t.unrecorded + 1))
  {}

  lemma WriteRowKeepsInv(s: State, w: nat)
    requires Inv(s) && Busy(s, w) && s.workers[w].Sent?
    ensures Inv(WriteRowStep(s, w))
  {
    WriteRowIs(s, w);
    if HasRow(s.db.rows, s.workers[w].job.At()) {
      FoundRowKeepsInv(s, w);
    } else {
      MissingRowKeepsInv(s, w, Tallied(s, w).(unrecorded := Tallied(s, w).unrecorded + 1));
    }
  }

  lemma MarkRowKeepsInv(s: State, w: nat)
    requires Inv(s) && Busy(s, w) && s.workers[w].Failing?
    ensures Inv(MarkRowStep(s, w))
  {
    var phase, t := s.workers[w], Tallied(s, w);
    assert HeldOk(phase, t) && Bounded(t) && PhaseOk(phase);
    MoveKeepsInv(s, w, Wrote(phase.job, Errored(phase.error)), t);
  }

  lemma FaultKeepsInv(s: State, w: nat)
    requires Inv(s) && Busy(s, w) && !s.workers[w].Failing?
    ensures Inv(FaultStep(s, w))
  {
    var phase, t := s.workers[w], Tallied(s, w);
    if Marking(phase) {
      DropKeepsInv(s, w, true, t);
    } else {
      FaultedIsOk(phase, t);
      MoveKeepsInv(s, w, Failing(phase.job, Transient), Faulted(phase, t));
    }
  }

  lemma FaultedIsOk(phase: Phase, t: Tally)
    requires !phase.Idle? && HeldOk(phase, t) && Bounded(t)
    ensures HeldOk(Failing(phase.job, Transient), Faulted(phase, t)) && Bounded(Faulted(phase, t))
  {}

  // ---------- counting ----------

  /** In the transaction's own view its row is settled, and the others are as committed. */
  lemma ViewOfChange(rows: map<int, Row>, k: Key, change: Change)
    ensures var view := Changed(rows, k, change);
            && (forall i :: i in view <==> i in rows)
            && (forall i :: i in rows ==> view[i].At() == rows[i].At())
            && (forall i :: i in rows && rows[i].At() != k ==> view[i] == rows[i])
            && (forall i :: i in rows && rows[i].At() == k ==> view[i] == change.On(rows[i]) && !view[i].Pending())
  {}

  /** The row of a live job, if it is still there, is pending. */
  lemma LiveRowIsPending(rows: map<int, Row>, claims: Claims, lost: set<Key>, live: multiset<Key>, k: Key)
    requires forall i :: i in rows ==> RowOk(rows[i], claims, lost, live)
    requires k in live && k.post in claims
    ensures forall i :: i in rows && rows[i].At() == k ==> rows[i].Pending()
    ensures HasRow(rows, k) ==> HasOpenRow(rows, k) && Judge(rows, k.post) == Unfinished && !AllPosted(rows, k.post)
    ensures !HasRow(rows, k) ==> forall change :: Changed(rows, k, change) == rows
  {
    forall i | i in rows && rows[i].At() == k ensures rows[i].Pending() {
      assert RowOk(rows[i], claims, lost, live);
    }
    JudgeMeaning(rows, k.post);
    if !HasRow(rows, k) {
      forall change ensures Changed(rows, k, change) == rows {
        assert forall i :: i in rows ==> rows[i].At() != k;
      }
    }
  }

  lemma ErrorIsSeen(rows: map<int, Row>, k: Key, change: Change, a: int)
    requires HasRow(rows, Key(k.post, a))
    requires if a == k.account then change.Errored?
             else forall i :: i in rows && rows[i].At() == Key(k.post, a) ==> rows[i].errors.Some?
    ensures !AllPosted(Changed(rows, k, change), k.post)
  {
    var i :| i in rows && rows[i].At() == Key(k.post, a);
    assert Changed(rows, k, change)[i].errors.Some?;
  }

  /** If every row is settled in that view, it holds an error exactly if the error of an
      account whose row is still there has been committed or is about to be. */
  lemma VerdictIsAboutErrors(rows: map<int, Row>, k: Key, change: Change, claim: Claim)
    requires HistoryOk(rows, k.post, claim) && k.account in claim.accounts
    requires forall i :: i in rows && rows[i].At() == k ==> rows[i].Pending()
    requires Judge(Changed(rows, k, change), k.post) != Unfinished
    ensures AllPosted(Changed(rows, k, change), k.post) <==>
              (if change.Errored? then claim.failed + {k.account} else claim.failed) <= claim.gone
  {
    var view := Changed(rows, k, change);
    var failed := if change.Errored? then claim.failed + {k.account} else claim.failed;
    ViewOfChange(rows, k, change);
    JudgeMeaning(view, k.post);
    if AllPosted(view, k.post) {
      forall a | a in failed ensures a in claim.gone {
        if a !in claim.gone {
          ErrorIsSeen(rows, k, change, a);
        }
      }
    } else {
      var i :| i in view && view[i].post == k.post && view[i].errors.Some?;
      assert HasRow(rows, rows[i].At()) && rows[i].account in failed;
    }
  }

  lemma CountedIsOk(s: State, phase: Phase, at: int, t: Tally)
    requires phase.Wrote? && HeldOk(phase, t) && PhaseOk(phase) && phase.job.post in s.past.claims
    requires HistoryOk(s.db.rows, phase.job.post, s.past.claims[phase.job.post])
    requires phase.job.account in s.past.claims[phase.job.post].accounts
    requires forall i :: i in s.db.rows && s.db.rows[i].At() == phase.job.At() ==> s.db.rows[i].Pending()
    ensures var counted := CountedPhase(s, phase, at);
            HeldOk(counted, t) && PhaseOk(counted) && CountOk(counted, s.db.rows, s.past.claims[phase.job.post])
  {
    var k := phase.job.At();
    JudgeMeaning(Changed(s.db.rows, k, phase.change), k.post);
    if Judge(Changed(s.db.rows, k, phase.change), k.post) != Unfinished {
      VerdictIsAboutErrors(s.db.rows, k, phase.change, s.past.claims[k.post]);
    }
  }

  /** A count that reaches a verdict has met no pending row of another job. */
  lemma CountEncloses(s: State, phase: Phase, at: int)
    requires phase.Wrote? && phase.job.post in s.past.claims
    requires RowsMatch(s.db, s.past.claims, s.past.lost, Live(s))
    requires HistoryOk(s.db.rows, phase.job.post, s.past.claims[phase.job.post])
    ensures Encloses(CountedPhase(s, phase, at), Live(s))
  {
    var k, counted := phase.job.At(), CountedPhase(s, phase, at);
    forall j | counted.verdict != Unfinished && j in Live(s) && j.post == k.post && j != k
      ensures j.account in counted.gone
    {
      LiveRowIsPending(s.db.rows, s.past.claims, s.past.lost, Live(s), j);
      if HasRow(s.db.rows, j) {
        OpenRowIsSeen(s.db.rows, k, phase.change, j);
      }
      assert j == Key(k.post, j.account);
    }
  }

  lemma CountKeepsInv(s: State, w: nat, at: int)
    requires Inv(s) && Busy(s, w) && s.workers[w].Wrote?
    ensures Inv(CountStep(s, w, at))
  {
    var phase := s.workers[w];
    HeldIsOk(s, w);
    WorkersAreAlone(s, w);
    assert phase.job.At() in Live(s);
    LiveRowIsPending(s.db.rows, s.past.claims, s.past.lost, Live(s), phase.job.At());
    assert PostOk(s.db.posts[phase.job.post], s.db.rows, phase.job.post, s.past.claims[phase.job.post]);
    CountedIsOk(s, phase, at, Tallied(s, w));
    CountEncloses(s, phase, at);
    MoveKeepsInv(s, w, CountedPhase(s, phase, at), Tallied(s, w));
  }
}
