/**
 * What the route handlers of the server guarantee, stated over `Server.Step`
 * and `Server.Run`: one lemma per route, then properties of whole request
 * sequences.
 */
module ServerFacts {
  import opened Lifecycle
  import opened Server

  // ---------------------------------------------------------------------------
  // One request at a time
  // ---------------------------------------------------------------------------

  /** A creation with all NOT NULL columns present adds exactly one unsigned
      PENDING_FEEDBACK row, under an id above every stored id; otherwise nothing changes. */
  lemma CreateAddsOneRow(t: Table, body: NewRecord)
    requires WellFormed(t)
    ensures var (t', res) := Step(t, PostRecord(body));
      if Insertable(body) then
        && res == Created(t.nextId)
        && (forall k :: k in t.rows ==> k < res.id)
        && t'.rows.Keys == t.rows.Keys + {res.id}
        && (forall k :: k in t.rows ==> t'.rows[k] == t.rows[k])
        && t'.rows[res.id].status == PendingFeedback
        && SignOffOf(t'.rows[res.id]) == Unsigned
        && BodyOf(t'.rows[res.id]) == body
        && t'.nextId == res.id + 1
      else
        res == ConstraintError && t' == t
  {
    if Insertable(body) {
      assert t.nextId !in t.rows;
    }
  }

  /** Deletion: NotFound for an unknown id, InvalidState once the record has left
      PENDING_FEEDBACK (both leaving the table as it was), else exactly that row goes. */
  lemma DeleteGuarded(t: Table, id: int)
    ensures var (t', res) := Step(t, DeleteRecord(id));
      && (id !in t.rows ==> res == NotFound && t' == t)
      && (id in t.rows && t.rows[id].status != PendingFeedback ==> res == InvalidState && t' == t)
      && (id in t.rows && t.rows[id].status == PendingFeedback ==>
            res == Ok && t'.nextId == t.nextId && t'.rows.Keys == t.rows.Keys - {id}
            && forall k :: k in t'.rows ==> t'.rows[k] == t.rows[k])
  {
  }

  /** Edit: the same guards as deletion, then a NOT NULL check; on success only the
      twelve editable columns of that one row change. */
  lemma UpdateGuarded(t: Table, id: int, e: Edit)
    ensures var (t', res) := Step(t, PutRecord(id, e));
      && (id !in t.rows ==> res == NotFound && t' == t)
      && (id in t.rows && t.rows[id].status != PendingFeedback ==> res == InvalidState && t' == t)
      && (res != Ok ==> t' == t)
      && (res == Ok ==>
            && id in t.rows && t.rows[id].status == PendingFeedback && Applicable(e)
            && t'.nextId == t.nextId && t'.rows.Keys == t.rows.Keys
            && (forall k :: k in t.rows && k != id ==> t'.rows[k] == t.rows[k])
            && EditOf(t'.rows[id]) == e
            && t'.rows[id].id == t.rows[id].id
            && t'.rows[id].registrationDate == t.rows[id].registrationDate
            && t'.rows[id].creatorEmail == t.rows[id].creatorEmail
            && t'.rows[id].status == PendingFeedback
            && SignOffOf(t'.rows[id]) == SignOffOf(t.rows[id]))
  {
  }

  /** Feedback: always Ok, whatever the status; only the row with that id changes,
      and it becomes PENDING_COMMITMENT carrying the given feedback. */
  lemma FeedbackUnguarded(t: Table, id: int, text: Text, signature: Text, date: string)
    ensures var (t', res) := Step(t, PatchFeedback(id, text, signature, date));
      && res == Ok && t'.nextId == t.nextId && t'.rows.Keys == t.rows.Keys
      && (forall k :: k in t.rows && k != id ==> t'.rows[k] == t.rows[k])
      && (id in t.rows ==>
            && t'.rows[id].status == PendingCommitment
            && t'.rows[id].supervisorFeedback == text
            && t'.rows[id].feedbackDate == Some(date)
            && t'.rows[id].feedbackSignature == signature)
      && (id !in t.rows ==> t' == t)
  {
  }

  /** Commitment: always Ok, whatever the status; only the row with that id changes,
      and it becomes COMPLETED carrying the given commitment. */
  lemma CommitmentUnguarded(t: Table, id: int, text: Text, signature: Text, date: string)
    ensures var (t', res) := Step(t, PatchCommitment(id, text, signature, date));
      && res == Ok && t'.nextId == t.nextId && t'.rows.Keys == t.rows.Keys
      && (forall k :: k in t.rows && k != id ==> t'.rows[k] == t.rows[k])
      && (id in t.rows ==>
            && t'.rows[id].status == Completed
            && t'.rows[id].agentCommitment == text
            && t'.rows[id].commitmentDate == Some(date)
            && t'.rows[id].commitmentSignature == signature)
      && (id !in t.rows ==> t' == t)
  {
  }

  /** Every route keeps rows under their own ids and below the next id. */
  lemma StepKeepsWellFormed(t: Table, op: Op)
    requires WellFormed(t)
    ensures WellFormed(Step(t, op).0)
  {
  }

  /** No route takes a record back to PENDING_FEEDBACK, nor removes it once it has left. */
  lemma StatusNeverReturns(t: Table, op: Op, k: int)
    requires WellFormed(t)
    requires k in t.rows && t.rows[k].status != PendingFeedback
    ensures k in Step(t, op).0.rows && Step(t, op).0.rows[k].status != PendingFeedback
  {
    if op.PostRecord? {
      assert t.nextId != k;
    }
  }

  // ---------------------------------------------------------------------------
  // Sequences of requests
  // ---------------------------------------------------------------------------

  lemma {:induction false} RunKeepsWellFormed(t: Table, ops: seq<Op>)
    requires WellFormed(t)
    ensures WellFormed(Run(t, ops))
    decreases |ops|
  {
    if |ops| > 0 {
      StepKeepsWellFormed(t, ops[0]);
      RunKeepsWellFormed(Step(t, ops[0]).0, ops[1..]);
    }
  }

  /** Once a record has left PENDING_FEEDBACK it stays in the table and never returns. */
  lemma {:induction false} SignedOffStaysSignedOff(t: Table, ops: seq<Op>, k: int)
    requires WellFormed(t)
    requires k in t.rows && t.rows[k].status != PendingFeedback
    ensures k in Run(t, ops).rows && Run(t, ops).rows[k].status != PendingFeedback
    decreases |ops|
  {
    if |ops| > 0 {
      StepKeepsWellFormed(t, ops[0]);
      StatusNeverReturns(t, ops[0], k);
      SignedOffStaysSignedOff(Step(t, ops[0]).0, ops[1..], k);
    }
  }

  /** Hence every later edit or deletion of it is refused and changes nothing. */
  lemma LaterEditsAndDeletesFail(t: Table, ops: seq<Op>, k: int, e: Edit)
    requires WellFormed(t)
    requires k in t.rows && t.rows[k].status != PendingFeedback
    ensures var t' := Run(t, ops);
      Step(t', PutRecord(k, e)) == (t', InvalidState) && Step(t', DeleteRecord(k)) == (t', InvalidState)
  {
    SignedOffStaysSignedOff(t, ops, k);
  }

  /** The ids the successful creations of a request sequence answer, in order. */
  function Issued(t: Table, ops: seq<Op>): seq<int>
    decreases |ops|
  {
    if |ops| == 0 then []
    else
      var (t1, res) := Step(t, ops[0]);
      (if res.Created? then [res.id] else []) + Issued(t1, ops[1..])
  }

  /** Every id a creation answers is above every id issued before it (the counter's
      value at the start and every earlier creation's id), and below the final counter. */
  lemma {:induction false} IssuedIdsIncrease(t: Table, ops: seq<Op>)
    ensures t.nextId <= Run(t, ops).nextId
    ensures forall i :: 0 <= i < |Issued(t, ops)| ==> t.nextId <= Issued(t, ops)[i] < Run(t, ops).nextId
    ensures forall i, j :: 0 <= i < j < |Issued(t, ops)| ==> Issued(t, ops)[i] < Issued(t, ops)[j]
    decreases |ops|
  {
    if |ops| > 0 {
      var (t1, res) := Step(t, ops[0]);
      IssuedIdsIncrease(t1, ops[1..]);
      var rest := Issued(t1, ops[1..]);
      var last := Run(t1, ops[1..]).nextId;
      assert Run(t, ops).nextId == last;
      assert t1.nextId <= last;
      assert forall i :: 0 <= i < |rest| ==> t1.nextId <= rest[i] < last;
      assert forall i, j :: 0 <= i < j < |rest| ==> rest[i] < rest[j];
      if res.Created? {
        assert res.id == t.nextId && t1.nextId == t.nextId + 1;
        assert Issued(t, ops) == [res.id] + rest;
      } else {
        assert t1.nextId == t.nextId;
        assert Issued(t, ops) == rest;
      }
    }
  }

  // ---------------------------------------------------------------------------
  // What the status does and does not tell
  // ---------------------------------------------------------------------------

  /** The invariant the handlers do keep: a PENDING_FEEDBACK row has no sign-off
      at all, and a later status is backed by the date its route stamps. */
  ghost predicate StatusWitnessed(r: Record)
  {
    && (r.status == PendingFeedback ==> SignOffOf(r) == Unsigned)
    && (r.status == PendingCommitment ==> r.feedbackDate.Some?)
    && (r.status == Completed ==> r.commitmentDate.Some?)
  }

  ghost predicate AllWitnessed(t: Table)
  {
    forall k :: k in t.rows ==> StatusWitnessed(t.rows[k])
  }

  lemma StepKeepsWitnessed(t: Table, op: Op)
    requires WellFormed(t) && AllWitnessed(t)
    ensures AllWitnessed(Step(t, op).0)
  {
  }

  lemma {:induction false} RunKeepsWitnessed(t: Table, ops: seq<Op>)
    requires WellFormed(t) && AllWitnessed(t)
    ensures AllWitnessed(Run(t, ops))
    decreases |ops|
  {
    if |ops| > 0 {
      StepKeepsWellFormed(t, ops[0]);
      StepKeepsWitnessed(t, ops[0]);
      RunKeepsWitnessed(Step(t, ops[0]).0, ops[1..]);
    }
  }

  /** The intended rule that each sign-off is written once and the status follows the
      sign-offs present. The handlers do NOT keep it (the next two lemmas). */
  ghost predicate SignOffsDetermineStatus(r: Record)
  {
    match r.status
    case PendingFeedback => r.supervisorFeedback.None? && r.agentCommitment.None?
    case PendingCommitment => r.supervisorFeedback.Some? && r.agentCommitment.None?
    case Completed => r.supervisorFeedback.Some? && r.agentCommitment.Some?
  }

  /** A commitment on a record still waiting for feedback completes it without feedback. */
  lemma CommitmentSkipsFeedback(t: Table, k: int, text: Text, signature: Text, date: string)
    requires AllWitnessed(t)
    requires k in t.rows && t.rows[k].status == PendingFeedback
    ensures var r := Step(t, PatchCommitment(k, text, signature, date)).0.rows[k];
      r.status == Completed && r.supervisorFeedback == None && !SignOffsDetermineStatus(r)
  {
    assert SignOffOf(t.rows[k]) == Unsigned;
  }

  /** Feedback on a completed record reopens it to PENDING_COMMITMENT and replaces the
      earlier feedback, while the commitment stays: sign-offs are not one-shot. */
  lemma FeedbackReopensCompleted(t: Table, k: int, text: string, signature: Text, date: string)
    requires k in t.rows && t.rows[k].status == Completed && t.rows[k].agentCommitment.Some?
    ensures var r := Step(t, PatchFeedback(k, Some(text), signature, date)).0.rows[k];
      && r.status == PendingCommitment
      && r.supervisorFeedback == Some(text) && r.feedbackSignature == signature
      && r.agentCommitment == t.rows[k].agentCommitment
      && !SignOffsDetermineStatus(r)
  {
  }

  /** The intended lifecycle run through the handlers from an empty table (what a new
      `RecordStore` holds): a record is created, signed by a supervisor and an agent,
      and a second feedback is then accepted. */
  lemma SecondFeedbackAccepted(body: NewRecord, sup: string, agent: string, d1: string, d2: string, d3: string)
    requires Insertable(body)
    ensures
      var t0 := Table(map[], 1);
      var (t1, r1) := Step(t0, PostRecord(body));
      var (t2, r2) := Step(t1, PatchFeedback(1, Some("Improve call opening"), Some(sup), d1));
      var (t3, r3) := Step(t2, PatchCommitment(1, Some("Will review script"), Some(agent), d2));
      var (t4, r4) := Step(t3, PatchFeedback(1, Some("again"), Some(agent), d3));
      && r1 == Created(1) && t1.rows[1].status == PendingFeedback
      && r2 == Ok && t2.rows[1].status == PendingCommitment && t2.rows[1].feedbackSignature == Some(sup)
      && r3 == Ok && t3.rows[1].status == Completed
      && r4 == Ok && t4.rows[1].status == PendingCommitment
      && t4.rows[1].feedbackSignature == Some(agent)
  {
  }

  // ---------------------------------------------------------------------------
  // Accounts
  // ---------------------------------------------------------------------------

  /** On fresh tables, a registration followed by a login with a password bcrypt
      accepts answers the registered role; a second registration of the same
      e-mail fails with the 500 of the catch block as written (its error carries the
      extended duplicate-key code) and does not replace the first role. */
  method RegisterThenLogIn(email: string, passwordHash: string, role: Option<string>,
                           otherHash: string, otherRole: Option<string>,
                           password: string, matches: (string, string) -> bool)
    returns (again: Response, session: Response)
    requires matches(password, passwordHash)
    ensures again == ServerError
    ensures session == LoggedIn(email, RoleOrDefault(role))
  {
    var store := new RecordStore();
    var first := store.Register(email, passwordHash, role);
    again := store.Register(email, otherHash, otherRole);
    session := store.Login(email, password, matches);
  }

  /** On a new store, the first successful `POST /api/records` answers id 1 and leaves
      the table `SecondFeedbackAccepted` continues from. */
  method FirstRecordOfFreshStore(body: NewRecord) returns (res: Response, rows: map<int, Record>)
    requires Insertable(body)
    ensures res == Created(1)
    ensures rows == Step(Table(map[], 1), PostRecord(body)).0.rows
    ensures 1 in rows && rows[1].status == PendingFeedback && SignOffOf(rows[1]) == Unsigned
  {
    var store := new RecordStore();
    res := store.Create(body);
    rows := store.records;
  }

  /** As written, registering an e-mail that is already present answers the generic
      500 rather than "already exists": the driver's code is the extended one. */
  lemma DuplicateEmailAnswers500()
    ensures DuplicateKeyCode != ConstraintCode
    ensures RegisterFailureAsWritten(DuplicateKeyCode) == ServerError
  {
  }

  /** The corrected catch block answers "already exists" for a repeated e-mail, and for
      every code the written one recognised. */
  lemma DuplicateEmailAnswersConflict()
    ensures RegisterFailure(DuplicateKeyCode) == Conflict
    ensures forall code :: RegisterFailureAsWritten(code) == Conflict ==> RegisterFailure(code) == Conflict
  {
    assert ConstraintCode <= DuplicateKeyCode;
  }
}
