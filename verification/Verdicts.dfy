/** Whatever the queue says became of a capture, the server said so: every row that
    is marked was answered, in just that way, at an earlier step of the run. */
module Verdicts {
  import opened Basics
  import opened Schema
  import opened LocalStore
  import opened EndToEnd
  import Service

  /** One answer of the server to an action sent under an owner's token. */
  datatype Verdict = Verdict(owner: Owner, action: Action, result: ActionResult)

  /** The answer the server gives at this step. */
  ghost predicate Gives(s: System, step: Step, v: Verdict) {
    && step.Serve? && Enabled(s, step)
    && var request := s.requests[step.q];
       && v.owner == request.token && v.action == NextAction(request)
       && v.result == Service.Served(s.base.db, ServerScope(request.token).value, v.action, step.user, step.audit).1
  }

  ghost predicate RequestTold(q: Request, said: iset<Verdict>) {
    forall j :: 0 <= j < |q.results| && j < |q.batch| ==> Verdict(q.token, q.batch[j].action, q.results[j]) in said
  }

  ghost predicate FlushTold(f: Flush, said: iset<Verdict>) {
    forall x :: x in f.answers ==> Verdict(f.login.owner, x.0.action, x.1) in said
  }

  /** The row is unsynced, or marked as an answer to this very action says. */
  ghost predicate RowTold(st: Stored, said: iset<Verdict>) {
    st.status.Unsynced?
    || exists r: ActionResult :: Verdict(st.owner, st.action, r) in said && AnsweredBy(st, r)
  }

  /** Nothing on the device claims an answer that was not given. */
  ghost predicate Told(s: System, said: iset<Verdict>) {
    && (forall q :: q in s.requests ==> RequestTold(s.requests[q], said))
    && (forall t :: 0 <= t < |s.tabs| && s.tabs[t].flush.Some? ==> FlushTold(s.tabs[t].flush.value, said))
    && (forall k :: k in s.base.rows ==> RowTold(s.base.rows[k], said))
  }

  lemma MoreSaid(s: System, said: iset<Verdict>, more: iset<Verdict>)
    requires Told(s, said) && said <= more
    ensures Told(s, more)
  {
  }

  lemma ServeTold(s: System, step: Step, said: iset<Verdict>)
    requires Told(s, said) && Enabled(s, step) && step.Serve? && Inv(s)
    requires forall v :: Gives(s, step, v) ==> v in said
    ensures Told(Next(s, step), said)
  {
    hide Service.Served, FlushTold, RowTold, DrawnBy;
    var request := s.requests[step.q];
    var r := Service.Served(s.base.db, ServerScope(request.token).value, NextAction(request), step.user, step.audit).1;
    assert Gives(s, step, Verdict(request.token, NextAction(request), r));
    var after := Next(s, step).requests[step.q];
    assert after.results == request.results + [r];
    assert RequestTold(after, said);
  }

  lemma ReceiveTold(s: System, step: Step, said: iset<Verdict>)
    requires Told(s, said) && Enabled(s, step) && step.Receive? && Inv(s)
    ensures Told(Next(s, step), said)
  {
    hide RowTold, BaseOk, MapsOk, FlushOk, RequestOk, DrawnOnce;
    var request := s.requests[step.q];
    var f := FlushOf(s, request.tab);
    assert f.login.owner == request.token;
    var after := Next(s, step).tabs[request.tab].flush.value;
    assert FlushTold(f, said) && RequestTold(request, said);
    forall x | x in after.answers ensures Verdict(f.login.owner, x.0.action, x.1) in said {
      if x !in f.answers {
        var i :| 0 <= i < |request.batch| && x == (request.batch[i], request.results[i]);
      }
    }
  }

  lemma ReplacedTold(rows: Rows, st: Stored, o: Owner, said: iset<Verdict>)
    requires forall k :: k in rows ==> RowTold(rows[k], said)
    requires GuardHolds(rows, st, o) ==> RowTold(st.(revision := st.revision + 1), said)
    ensures forall k :: k in Replaced(rows, st, o) ==> RowTold(Replaced(rows, st, o)[k], said)
  {
    hide RowTold;
  }

  lemma ReconcileTold(s: System, step: Step, said: iset<Verdict>)
    requires Told(s, said) && Enabled(s, step) && step.Reconcile?
    ensures Told(Next(s, step), said)
  {
    hide LearnedFrom, Replaced;
    var f := FlushOf(s, step.t);
    var marked := LocalStore.Reconciled(step.st, step.r);
    assert FlushTold(f, said);
    hide RequestTold;
    if GuardHolds(s.base.rows, step.st, f.login.owner) {
      assert Verdict(f.login.owner, step.st.action, step.r) in said;
      assert AnsweredBy(marked.(revision := marked.revision + 1), step.r);
      assert RowTold(marked.(revision := marked.revision + 1), said);
      ReplacedTold(s.base.rows, marked, f.login.owner, said);
      LearnsNoAnswer(f, step.st, step.r);
    }
  }

  lemma LearnsNoAnswer(f: Flush, st: Stored, r: ActionResult)
    ensures LearnedFrom(f, st, r).answers == f.answers && LearnedFrom(f, st, r).login == f.login
  {
  }

  lemma RewriteTold(s: System, step: Step, said: iset<Verdict>)
    requires Told(s, said) && Enabled(s, step) && (step.RewritePlayer? || step.RewriteSession? || step.Bump?)
    ensures Told(Next(s, step), said)
  {
    hide RequestTold, FlushTold;
    var f := FlushOf(s, step.t);
    var written := if step.Bump? then Bumped(step.st)
                   else if step.RewritePlayer? then WithKnownPlayer(step.st, f.players.ids)
                   else WithKnownSession(step.st, f.sessions.ids);
    assert written.status.Unsynced?;
    ReplacedTold(s.base.rows, written, f.login.owner, said);
  }

  lemma OtherTold(s: System, step: Step, said: iset<Verdict>)
    requires Told(s, said) && Enabled(s, step)
    requires !step.Serve? && !step.Receive? && !step.Reconcile?
    requires !step.RewritePlayer? && !step.RewriteSession? && !step.Bump?
    ensures Told(Next(s, step), said)
  {
    hide Service.Served, DrawnBy, Saved;
  }

  lemma StepTold(s: System, step: Step, said: iset<Verdict>)
    requires Told(s, said) && Enabled(s, step) && Inv(s)
    requires forall v :: Gives(s, step, v) ==> v in said
    ensures Told(Next(s, step), said)
  {
    hide Told, Next, Enabled, Inv, Gives;
    if step.Serve? {
      ServeTold(s, step, said);
    } else if step.Receive? {
      ReceiveTold(s, step, said);
    } else if step.Reconcile? {
      ReconcileTold(s, step, said);
    } else if step.RewritePlayer? || step.RewriteSession? || step.Bump? {
      RewriteTold(s, step, said);
    } else {
      OtherTold(s, step, said);
    }
  }

  ghost predicate SaidBefore(states: seq<System>, steps: seq<Step>, i: nat, v: Verdict)
    requires i <= |steps| && |states| == |steps| + 1
  {
    exists n :: 0 <= n < i && Gives(states[n], steps[n], v)
  }

  /** What the server has said in the first `i` steps of a run. */
  ghost function Said(states: seq<System>, steps: seq<Step>, i: nat): iset<Verdict>
    requires i <= |steps| && |states| == |steps| + 1
  {
    iset v: Verdict | SaidBefore(states, steps, i, v)
  }

  lemma {:induction false} RunTold(states: seq<System>, steps: seq<Step>, i: nat)
    requires Execution(states, steps) && Initial(states[0]) && i <= |steps|
    ensures Inv(states[i]) && Told(states[i], Said(states, steps, i))
    decreases i
  {
    hide Told, Next, Enabled, Inv, Gives, Initial;
    if i == 0 {
      InitialInv(states[0]);
      InitialTold(states[0], Said(states, steps, 0));
    } else {
      RunTold(states, steps, i - 1);
      StepKeepsInv(states[i - 1], steps[i - 1]);
      var said := Said(states, steps, i);
      assert Said(states, steps, i - 1) <= said;
      MoreSaid(states[i - 1], Said(states, steps, i - 1), said);
      StepTold(states[i - 1], steps[i - 1], said);
    }
  }

  lemma InitialTold(s: System, said: iset<Verdict>)
    requires Initial(s)
    ensures Told(s, said)
  {
  }

  /** At any moment of any run, a row that is no longer unsynced was answered at an
      earlier step, under its owner's token and for the very action it holds, and is
      marked applied, skipped or rejected exactly as it was answered, a rejected one
      with the server's reason. */
  lemma MarkedAsAnswered(states: seq<System>, steps: seq<Step>, i: nat, k: Id)
    requires Execution(states, steps) && Initial(states[0]) && i <= |steps|
    requires k in states[i].base.rows && !states[i].base.rows[k].status.Unsynced?
    ensures var st := states[i].base.rows[k];
            exists n, r: ActionResult ::
              0 <= n < i && Gives(states[n], steps[n], Verdict(st.owner, st.action, r))
              && (st.status.SyncApplied? <==> r.status.Applied?) && (st.status.SyncSkipped? <==> r.status.Skipped?)
              && (st.status.SyncRejected? <==> r.status.Rejected?) && (r.status.Rejected? ==> st.reason == r.reason)
  {
    hide Initial, Enabled, Next, Inv, Gives;
    RunTold(states, steps, i);
    var st := states[i].base.rows[k];
    assert RowTold(st, Said(states, steps, i));
    var r: ActionResult :| Verdict(st.owner, st.action, r) in Said(states, steps, i) && AnsweredBy(st, r);
    var n :| 0 <= n < i && Gives(states[n], steps[n], Verdict(st.owner, st.action, r));
  }
}
