/**
 * The Express + SQLite back end: the `users` and `monitoring_records` tables
 * and the route handlers that read and write them.
 *
 * Every handler is a guard-then-write on shared tables. The tables are the
 * fields of `RecordStore`; its methods are proved against `Step`, a pure
 * transition function over a `Table` value, so that the lemmas of module
 * ServerFacts about `Step` are lemmas about the handlers.
 */
module Server {
  import opened Lifecycle

  /** A nullable TEXT column; `None` is SQL NULL. */
  type Text = Option<string>

  /** One row of `monitoring_records`. The five NOT NULL columns are plain strings. */
  datatype Record = Record(
    id: int,
    callDetails: string,
    agentName: string,
    registrationDate: string,
    callDate: string,
    creatorEmail: string,
    coordinator: Text,
    monitoringId: Text,
    serviceLevel: Text,
    attachmentName: Text,
    attachmentData: Text,
    endUserError: Text,
    businessCriticalError: Text,
    complianceError: Text,
    nonCriticalError: Text,
    supervisorFeedback: Text,
    feedbackDate: Text,
    feedbackSignature: Text,
    agentCommitment: Text,
    commitmentDate: Text,
    commitmentSignature: Text,
    status: Status)

  /** The JSON body of `POST /api/records`; an absent property binds as NULL. */
  datatype NewRecord = NewRecord(
    callDetails: Text,
    agentName: Text,
    registrationDate: Text,
    callDate: Text,
    creatorEmail: Text,
    coordinator: Text,
    monitoringId: Text,
    serviceLevel: Text,
    attachmentName: Text,
    attachmentData: Text,
    endUserError: Text,
    businessCriticalError: Text,
    complianceError: Text,
    nonCriticalError: Text)

  /** The JSON body of `PUT /api/records/:id`: the twelve editable columns. */
  datatype Edit = Edit(
    callDetails: Text,
    agentName: Text,
    callDate: Text,
    coordinator: Text,
    monitoringId: Text,
    serviceLevel: Text,
    attachmentName: Text,
    attachmentData: Text,
    endUserError: Text,
    businessCriticalError: Text,
    complianceError: Text,
    nonCriticalError: Text)

  /** One row of `users`; `passwordHash` is what bcrypt produced at registration. */
  datatype User = User(email: string, passwordHash: string, role: string)

  /** What a handler answers. */
  datatype Response =
    | Ok
    | Created(id: int)
    | LoggedIn(email: string, role: string)
    | NotFound
    | InvalidState
    | Conflict
    | ServerError
    | ConstraintError
    | Unauthorized

  /** The default of the `role` column, also what `role || 'AGENT'` falls back to. */
  const DefaultRole := "AGENT"

  function SignOffOf(r: Record): SignOff
  {
    SignOff(r.supervisorFeedback, r.feedbackDate, r.feedbackSignature,
            r.agentCommitment, r.commitmentDate, r.commitmentSignature)
  }

  /** The creation body this row's columns correspond to. */
  function BodyOf(r: Record): NewRecord
  {
    NewRecord(Some(r.callDetails), Some(r.agentName), Some(r.registrationDate),
              Some(r.callDate), Some(r.creatorEmail), r.coordinator, r.monitoringId,
              r.serviceLevel, r.attachmentName, r.attachmentData, r.endUserError,
              r.businessCriticalError, r.complianceError, r.nonCriticalError)
  }

  /** The twelve editable columns of this row, as an edit body. */
  function EditOf(r: Record): Edit
  {
    Edit(Some(r.callDetails), Some(r.agentName), Some(r.callDate), r.coordinator,
         r.monitoringId, r.serviceLevel, r.attachmentName, r.attachmentData,
         r.endUserError, r.businessCriticalError, r.complianceError, r.nonCriticalError)
  }

  /** The INSERT satisfies the five NOT NULL constraints. */
  predicate Insertable(b: NewRecord)
  {
    b.callDetails.Some? && b.agentName.Some? && b.registrationDate.Some?
    && b.callDate.Some? && b.creatorEmail.Some?
  }

  /** The UPDATE satisfies the NOT NULL constraints of the columns it writes. */
  predicate Applicable(e: Edit)
  {
    e.callDetails.Some? && e.agentName.Some? && e.callDate.Some?
  }

  /**
   * The row the INSERT of `POST /api/records` stores under `id`, or None when
   * the statement fails on a NOT NULL constraint. `status` takes its column
   * default and the sign-off columns are not named, so they are NULL.
   */
  function NewRow(id: int, b: NewRecord): (r: Option<Record>)
    ensures r.None? <==> !Insertable(b)
    ensures r.Some? ==> r.value.id == id && r.value.status == PendingFeedback
    ensures r.Some? ==> SignOffOf(r.value) == Unsigned && BodyOf(r.value) == b
  {
    if !Insertable(b) then None
    else Some(Record(id, b.callDetails.value, b.agentName.value, b.registrationDate.value,
                     b.callDate.value, b.creatorEmail.value, b.coordinator, b.monitoringId,
                     b.serviceLevel, b.attachmentName, b.attachmentData, b.endUserError,
                     b.businessCriticalError, b.complianceError, b.nonCriticalError,
                     None, None, None, None, None, None, PendingFeedback))
  }

  /** The row after the UPDATE of `PUT /api/records/:id`. */
  function Edited(r: Record, e: Edit): (r': Record)
    requires Applicable(e)
    ensures EditOf(r') == e
    ensures r'.id == r.id && r'.registrationDate == r.registrationDate
    ensures r'.creatorEmail == r.creatorEmail && r'.status == r.status
    ensures SignOffOf(r') == SignOffOf(r)
  {
    r.(callDetails := e.callDetails.value, agentName := e.agentName.value,
       callDate := e.callDate.value, coordinator := e.coordinator,
       monitoringId := e.monitoringId, serviceLevel := e.serviceLevel,
       attachmentName := e.attachmentName, attachmentData := e.attachmentData,
       endUserError := e.endUserError, businessCriticalError := e.businessCriticalError,
       complianceError := e.complianceError, nonCriticalError := e.nonCriticalError)
  }

  /** The row after the UPDATE of `PATCH /api/records/:id/feedback`. */
  function WithFeedback(r: Record, text: Text, signature: Text, date: string): (r': Record)
    ensures r'.id == r.id && BodyOf(r') == BodyOf(r)
    ensures r'.supervisorFeedback == text && r'.feedbackDate == Some(date)
    ensures r'.feedbackSignature == signature
    ensures r'.agentCommitment == r.agentCommitment && r'.commitmentDate == r.commitmentDate
    ensures r'.commitmentSignature == r.commitmentSignature
    ensures r'.status == PendingCommitment
  {
    r.(supervisorFeedback := text, feedbackDate := Some(date),
       feedbackSignature := signature, status := PendingCommitment)
  }

  /** The row after the UPDATE of `PATCH /api/records/:id/commitment`. */
  function WithCommitment(r: Record, text: Text, signature: Text, date: string): (r': Record)
    ensures r'.id == r.id && BodyOf(r') == BodyOf(r)
    ensures r'.agentCommitment == text && r'.commitmentDate == Some(date)
    ensures r'.commitmentSignature == signature
    ensures r'.supervisorFeedback == r.supervisorFeedback && r'.feedbackDate == r.feedbackDate
    ensures r'.feedbackSignature == r.feedbackSignature
    ensures r'.status == Completed
  {
    r.(agentCommitment := text, commitmentDate := Some(date),
       commitmentSignature := signature, status := Completed)
  }

  /**
   * The `monitoring_records` table as a value: its rows by id, and the id the
   * next successful INSERT receives (one more than the AUTOINCREMENT counter).
   */
  datatype Table = Table(rows: map<int, Record>, nextId: int)

  /** Each row is stored under its own id, and every id lies below `nextId`. */
  ghost predicate WellFormed(t: Table)
  {
    && 0 < t.nextId
    && forall k :: k in t.rows ==> t.rows[k].id == k && 0 < k < t.nextId
  }

  /** A write to `monitoring_records`, one per route; `date` is the server's current date. */
  datatype Op =
    | PostRecord(body: NewRecord)
    | PutRecord(id: int, edit: Edit)
    | DeleteRecord(id: int)
    | PatchFeedback(id: int, text: Text, signature: Text, date: string)
    | PatchCommitment(id: int, text: Text, signature: Text, date: string)

  /** What one request does to the table, and what the handler answers. */
  function Step(t: Table, op: Op): (Table, Response)
  {
    match op
    case PostRecord(body) =>
      (match NewRow(t.nextId, body)
       case None => (t, ConstraintError)
       case Some(row) => (Table(t.rows[t.nextId := row], t.nextId + 1), Created(t.nextId)))
    case PutRecord(id, edit) =>
      if id !in t.rows then (t, NotFound)
      else if t.rows[id].status != PendingFeedback then (t, InvalidState)
      else if !Applicable(edit) then (t, ConstraintError)
      else (t.(rows := t.rows[id := Edited(t.rows[id], edit)]), Ok)
    case DeleteRecord(id) =>
      if id !in t.rows then (t, NotFound)
      else if t.rows[id].status != PendingFeedback then (t, InvalidState)
      else (t.(rows := t.rows - {id}), Ok)
    case PatchFeedback(id, text, signature, date) =>
      if id in t.rows then (t.(rows := t.rows[id := WithFeedback(t.rows[id], text, signature, date)]), Ok)
      else (t, Ok)
    case PatchCommitment(id, text, signature, date) =>
      if id in t.rows then (t.(rows := t.rows[id := WithCommitment(t.rows[id], text, signature, date)]), Ok)
      else (t, Ok)
  }

  /** The table after a sequence of requests. */
  function Run(t: Table, ops: seq<Op>): Table
    decreases |ops|
  {
    if |ops| == 0 then t else Run(Step(t, ops[0]).0, ops[1..])
  }

  /** `role || 'AGENT'`: an absent or empty role falls back to the column default. */
  function RoleOrDefault(role: Option<string>): (r: string)
    ensures r != ""
    ensures role.Some? && role.value != "" ==> r == role.value
    ensures role.None? || role.value == "" ==> r == DefaultRole
  {
    if role.Some? && role.value != "" then role.value else DefaultRole
  }

  /** The primary result code that every constraint failure's code starts with. */
  const ConstraintCode := "SQLITE_CONSTRAINT"

  /** The `code` better-sqlite3 gives the error of an INSERT that repeats a PRIMARY KEY:
      the extended result code, not the bare primary one. */
  const DuplicateKeyCode := "SQLITE_CONSTRAINT_PRIMARYKEY"

  /** The catch block of `POST /api/auth/register` as written: only the bare primary
      code is answered "already exists" (400); every other failure is a 500. */
  function RegisterFailureAsWritten(code: string): Response
  {
    if code == ConstraintCode then Conflict else ServerError
  }

  /** The catch block as intended: every constraint failure, whatever its extended
      code, is answered "already exists"; every other failure is a 500. */
  function RegisterFailure(code: string): Response
  {
    if ConstraintCode <= code then Conflict else ServerError
  }

  /** The two tables of `quality.db`. */
  class RecordStore {
    var records: map<int, Record>
    var nextId: int
    /** Every id an INSERT has ever issued, including those of deleted rows. */
    ghost var issued: set<int>
    var users: map<string, User>

    ghost predicate Valid()
      reads this
    {
      && WellFormed(Table(records, nextId))
      && records.Keys <= issued
      && (forall k :: k in issued ==> 0 < k < nextId)
      && (forall e :: e in users ==> users[e].email == e)
    }

    function Snapshot(): Table
      reads this
    {
      Table(records, nextId)
    }

    /** Freshly created, empty tables. */
    constructor ()
      ensures Valid()
      ensures records == map[] && users == map[] && issued == {}
      ensures nextId == 1 && Snapshot() == Table(map[], 1)
    {
      records := map[];
      nextId := 1;
      issued := {};
      users := map[];
    }

    /** `POST /api/auth/register`; `passwordHash` is bcrypt's digest of the submitted password.
        A repeated e-mail fails the INSERT on the primary key, and the catch block as
        written answers that failure. */
    method Register(email: string, passwordHash: string, role: Option<string>) returns (res: Response)
      requires Valid()
      modifies this
      ensures Valid()
      ensures records == old(records) && nextId == old(nextId) && issued == old(issued)
      ensures email in old(users) ==> res == ServerError && users == old(users)
      ensures email !in old(users) ==>
        res == Ok && users == old(users)[email := User(email, passwordHash, RoleOrDefault(role))]
    {
      if email in users {
        return RegisterFailureAsWritten(DuplicateKeyCode);
      }
      users := users[email := User(email, passwordHash, RoleOrDefault(role))];
      res := Ok;
    }

    /** `POST /api/auth/login`; `matches` stands for `bcrypt.compare`. */
    method Login(email: string, password: string, matches: (string, string) -> bool) returns (res: Response)
      requires Valid()
      ensures res.LoggedIn? || res == Unauthorized
      ensures res.LoggedIn? <==> email in users && matches(password, users[email].passwordHash)
      ensures res.LoggedIn? ==> res.email == email && res.role == users[email].role
    {
      if email !in users {
        return Unauthorized;
      }
      var user := users[email];
      if !matches(password, user.passwordHash) {
        return Unauthorized;
      }
      res := LoggedIn(user.email, user.role);
    }

    /** `GET /api/records`: every row, by id descending. */
    method List() returns (rows: seq<Record>)
      requires Valid()
      ensures forall i, j :: 0 <= i < j < |rows| ==> rows[i].id > rows[j].id
      ensures forall i :: 0 <= i < |rows| ==> rows[i].id in records && records[rows[i].id] == rows[i]
      ensures forall k :: k in records ==> records[k] in rows
    {
      rows := [];
      var k := nextId - 1;
      while k > 0
        invariant 0 <= k < nextId
        invariant forall i, j :: 0 <= i < j < |rows| ==> rows[i].id > rows[j].id
        invariant forall i :: 0 <= i < |rows| ==>
          k < rows[i].id && rows[i].id in records && records[rows[i].id] == rows[i]
        invariant forall id :: id in records && k < id ==> records[id] in rows
      {
        if k in records {
          rows := rows + [records[k]];
        }
        k := k - 1;
      }
    }

    /** `POST /api/records`. */
    method Create(body: NewRecord) returns (res: Response)
      requires Valid()
      modifies this
      ensures Valid()
      ensures (Snapshot(), res) == Step(old(Snapshot()), PostRecord(body))
      ensures users == old(users)
      ensures res == ConstraintError <==> !Insertable(body)
      ensures res.Created? ==> res.id !in old(issued) && issued == old(issued) + {res.id}
      ensures res.Created? ==> forall k :: k in old(issued) ==> k < res.id
      ensures !res.Created? ==> issued == old(issued) && records == old(records)
    {
      var row := NewRow(nextId, body);
      if row.None? {
        return ConstraintError;
      }
      res := Created(nextId);
      records := records[nextId := row.value];
      issued := issued + {nextId};
      nextId := nextId + 1;
    }

    /** `PUT /api/records/:id`. */
    method Update(id: int, edit: Edit) returns (res: Response)
      requires Valid()
      modifies this
      ensures Valid()
      ensures (Snapshot(), res) == Step(old(Snapshot()), PutRecord(id, edit))
      ensures users == old(users) && issued == old(issued)
      ensures res == NotFound <==> id !in old(records)
      ensures res == InvalidState <==> id in old(records) && old(records)[id].status != PendingFeedback
      ensures res != Ok ==> records == old(records)
    {
      if id !in records {
        return NotFound;
      }
      if records[id].status != PendingFeedback {
        return InvalidState;
      }
      if !Applicable(edit) {
        return ConstraintError;
      }
      records := records[id := Edited(records[id], edit)];
      res := Ok;
    }

    /** `DELETE /api/records/:id`. */
    method Delete(id: int) returns (res: Response)
      requires Valid()
      modifies this
      ensures Valid()
      ensures (Snapshot(), res) == Step(old(Snapshot()), DeleteRecord(id))
      ensures users == old(users) && issued == old(issued)
      ensures res == NotFound <==> id !in old(records)
      ensures res == InvalidState <==> id in old(records) && old(records)[id].status != PendingFeedback
      ensures res == Ok ==> records == old(records) - {id}
      ensures res != Ok ==> records == old(records)
    {
      if id !in records {
        return NotFound;
      }
      if records[id].status != PendingFeedback {
        return InvalidState;
      }
      records := records - {id};
      res := Ok;
    }

    /** `PATCH /api/records/:id/feedback`; `today` is the server's current date. */
    method SubmitFeedback(id: int, text: Text, signature: Text, today: string) returns (res: Response)
      requires Valid()
      modifies this
      ensures Valid()
      ensures (Snapshot(), res) == Step(old(Snapshot()), PatchFeedback(id, text, signature, today))
      ensures res == Ok && users == old(users) && issued == old(issued)
      ensures records.Keys == old(records).Keys
      ensures forall k :: k in records && k != id ==> records[k] == old(records)[k]
    {
      if id in records {
        records := records[id := WithFeedback(records[id], text, signature, today)];
      }
      res := Ok;
    }

    /** `PATCH /api/records/:id/commitment`; `today` is the server's current date. */
    method SubmitCommitment(id: int, text: Text, signature: Text, today: string) returns (res: Response)
      requires Valid()
      modifies this
      ensures Valid()
      ensures (Snapshot(), res) == Step(old(Snapshot()), PatchCommitment(id, text, signature, today))
      ensures res == Ok && users == old(users) && issued == old(issued)
      ensures records.Keys == old(records).Keys
      ensures forall k :: k in records && k != id ==> records[k] == old(records)[k]
    {
      if id in records {
        records := records[id := WithCommitment(records[id], text, signature, today)];
      }
      res := Ok;
    }
  }
}
