/**
 * The browser-only variant of the client: accounts and monitoring records kept
 * as arrays in local storage, the session of the signed-in user, and the lists
 * the dashboard derives from the records.
 *
 * Registration and login change the component's state in place, so they are
 * methods of `LocalApp`; submitting the record form builds a new array, and the
 * filters and option lists are expressions over the array, so those are
 * functions.
 */
module App {
  import opened Lifecycle
  import opened Ordering

  /** An entry of the `local_accounts` array; the password is kept as typed. */
  datatype Account = Account(email: string, password: string, role: string)

  /** The `MonitoringRecord` interface. */
  datatype LocalRecord = LocalRecord(
    id: int,
    callDetails: string,
    agentName: string,
    registrationDate: string,
    callDate: string,
    creatorEmail: string,
    coordinator: string,
    monitoringId: string,
    serviceLevel: string,
    attachmentName: Option<string>,
    attachmentData: Option<string>,
    endUserError: string,
    businessCriticalError: string,
    complianceError: string,
    nonCriticalError: string,
    supervisorFeedback: Option<string>,
    feedbackDate: Option<string>,
    feedbackSignature: Option<string>,
    agentCommitment: Option<string>,
    commitmentDate: Option<string>,
    commitmentSignature: Option<string>,
    status: Status)

  /** The `formData` state of the record form: thirteen text inputs. */
  datatype Form = Form(
    callDetails: string,
    agentName: string,
    registrationDate: string,
    callDate: string,
    coordinator: string,
    monitoringId: string,
    serviceLevel: string,
    attachmentName: string,
    attachmentData: string,
    endUserError: string,
    businessCriticalError: string,
    complianceError: string,
    nonCriticalError: string)

  /** The messages the login screen shows in its `authError` banner. */
  datatype Notice =
    | AlreadyRegistered   // 'Este correo ya está registrado.'
    | AccountCreated      // '¡Cuenta creada! Ya puedes iniciar sesión.'
    | WrongCredentials    // 'Correo o contraseña incorrectos.'

  /** The entry of both filter drop-downs that selects everything. */
  const All := "Todos"

  function SignOffOf(r: LocalRecord): SignOff
  {
    SignOff(r.supervisorFeedback, r.feedbackDate, r.feedbackSignature,
            r.agentCommitment, r.commitmentDate, r.commitmentSignature)
  }

  /** `s || null`: a JavaScript string used as a condition is false only when empty. */
  function OrNull(s: string): (r: Option<string>)
    ensures r.None? <==> s == ""
    ensures (if r.Some? then r.value else "") == s
  {
    if s == "" then None else Some(s)
  }

  /** The form as it would be filled from this record; a missing attachment reads as empty. */
  function FormOf(r: LocalRecord): Form
  {
    Form(r.callDetails, r.agentName, r.registrationDate, r.callDate, r.coordinator,
         r.monitoringId, r.serviceLevel,
         if r.attachmentName.Some? then r.attachmentName.value else "",
         if r.attachmentData.Some? then r.attachmentData.value else "",
         r.endUserError, r.businessCriticalError, r.complianceError, r.nonCriticalError)
  }

  // ---------------------------------------------------------------------------
  // Array.prototype.find and Array.prototype.filter
  // ---------------------------------------------------------------------------

  /** `s.find(p)`, as the index of the first element that satisfies `p`. */
  function First<T>(s: seq<T>, p: T -> bool): (r: Option<nat>)
    ensures r.Some? ==> r.value < |s| && p(s[r.value])
    ensures r.Some? ==> forall j :: 0 <= j < r.value ==> !p(s[j])
    ensures r.None? <==> forall j :: 0 <= j < |s| ==> !p(s[j])
    decreases |s|
  {
    if |s| == 0 then None
    else if p(s[0]) then Some(0)
    else
      match First(s[1..], p)
      case None => None
      case Some(i) => Some(i + 1)
  }

  /** `s.filter(p)`. */
  function Filter<T(!new)>(s: seq<T>, p: T -> bool): (r: seq<T>)
    ensures |r| <= |s|
    ensures forall x :: x in r <==> x in s && p(x)
    decreases |s|
  {
    if |s| == 0 then [] else (if p(s[0]) then [s[0]] else []) + Filter(s[1..], p)
  }

  /** Filtering keeps the order: what survives of a prefix precedes what survives of the rest. */
  lemma {:induction false} FilterAppend<T(!new)>(a: seq<T>, b: seq<T>, p: T -> bool)
    ensures Filter(a + b, p) == Filter(a, p) + Filter(b, p)
    decreases |a|
  {
    if |a| == 0 {
      assert a + b == b;
    } else {
      assert (a + b)[1..] == a[1..] + b;
      FilterAppend(a[1..], b, p);
    }
  }

  /** Filtering keeps every occurrence of a value it accepts and none of one it rejects. */
  lemma {:induction false} FilterCounts<T(!new)>(s: seq<T>, p: T -> bool, x: T)
    ensures multiset(Filter(s, p))[x] == if p(x) then multiset(s)[x] else 0
    decreases |s|
  {
    if |s| != 0 {
      assert s == [s[0]] + s[1..];
      FilterCounts(s[1..], p, x);
    }
  }

  // ---------------------------------------------------------------------------
  // The dashboard's filters and option lists
  // ---------------------------------------------------------------------------

  /** The test `filteredRecords` applies to each record. */
  predicate Kept(r: LocalRecord, coordinator: string, agent: string)
  {
    (coordinator == All || r.coordinator == coordinator) && (agent == All || r.agentName == agent)
  }

  /** `filteredRecords`. */
  function Filtered(records: seq<LocalRecord>, coordinator: string, agent: string): (r: seq<LocalRecord>)
    ensures forall x :: x in r <==> x in records && Kept(x, coordinator, agent)
  {
    Filter(records, (x: LocalRecord) => Kept(x, coordinator, agent))
  }

  /** With both drop-downs on `Todos` every record is shown, in order. */
  lemma {:induction false} FilteredAllIsIdentity(records: seq<LocalRecord>)
    ensures Filtered(records, All, All) == records
    decreases |records|
  {
    if |records| != 0 {
      FilteredAllIsIdentity(records[1..]);
      assert records == [records[0]] + records[1..];
    }
  }

  /** `['Todos', ...Array.from(new Set(values.filter(Boolean))).sort()]`. */
  function Choices(values: seq<string>): (r: seq<string>)
    ensures |r| != 0 && r[0] == All
    ensures StrictlySorted(r[1..])
    ensures forall v :: v in r[1..] <==> v in values && v != ""
  {
    [All] + SortedDistinct(values)
  }

  function CoordinatorColumn(records: seq<LocalRecord>): (c: seq<string>)
    ensures |c| == |records|
    ensures forall i :: 0 <= i < |records| ==> c[i] == records[i].coordinator
  {
    seq(|records|, i requires 0 <= i < |records| => records[i].coordinator)
  }

  function AgentColumn(records: seq<LocalRecord>): (c: seq<string>)
    ensures |c| == |records|
    ensures forall i :: 0 <= i < |records| ==> c[i] == records[i].agentName
  {
    seq(|records|, i requires 0 <= i < |records| => records[i].agentName)
  }

  /** `coordinators`: `Todos`, then each non-empty coordinator once, ascending. */
  function Coordinators(records: seq<LocalRecord>): (r: seq<string>)
    ensures |r| != 0 && r[0] == All && StrictlySorted(r[1..])
    ensures forall v :: v in r[1..] <==>
      v != "" && exists i :: 0 <= i < |records| && records[i].coordinator == v
  {
    var column := CoordinatorColumn(records);
    assert forall v :: v in column <==> exists i :: 0 <= i < |records| && records[i].coordinator == v by {
      forall v | v in column
        ensures exists i :: 0 <= i < |records| && records[i].coordinator == v
      {
        var i :| 0 <= i < |column| && column[i] == v;
      }
    }
    Choices(column)
  }

  /** `agents`: `Todos`, then each non-empty agent name once, ascending. */
  function Agents(records: seq<LocalRecord>): (r: seq<string>)
    ensures |r| != 0 && r[0] == All && StrictlySorted(r[1..])
    ensures forall v :: v in r[1..] <==>
      v != "" && exists i :: 0 <= i < |records| && records[i].agentName == v
  {
    var column := AgentColumn(records);
    assert forall v :: v in column <==> exists i :: 0 <= i < |records| && records[i].agentName == v by {
      forall v | v in column
        ensures exists i :: 0 <= i < |records| && records[i].agentName == v
      {
        var i :| 0 <= i < |column| && column[i] == v;
      }
    }
    Choices(column)
  }

  /** Picking any listed coordinator (and every agent) shows at least one record. */
  lemma ListedCoordinatorShowsSomething(records: seq<LocalRecord>, c: string)
    requires c in Coordinators(records)[1..]
    ensures Filtered(records, c, All) != []
  {
    var i :| 0 <= i < |records| && records[i].coordinator == c;
    assert records[i] in Filtered(records, c, All);
  }

  /** Picking any listed agent (and every coordinator) shows at least one record. */
  lemma ListedAgentShowsSomething(records: seq<LocalRecord>, a: string)
    requires a in Agents(records)[1..]
    ensures Filtered(records, All, a) != []
  {
    var i :| 0 <= i < |records| && records[i].agentName == a;
    assert records[i] in Filtered(records, All, a);
  }

  // ---------------------------------------------------------------------------
  // Submitting the record form
  // ---------------------------------------------------------------------------

  /** `if (!userEmail)`: no session, or an empty e-mail. */
  predicate SignedIn(userEmail: Option<string>)
  {
    userEmail.Some? && userEmail.value != ""
  }

  /** `if (editingId)`: null and 0 both mean "create". */
  predicate Editing(editingId: Option<int>)
  {
    editingId.Some? && editingId.value != 0
  }

  /** The record the create branch appends; `now` is `Date.now()`. */
  function NewLocalRecord(form: Form, creator: string, now: int): (r: LocalRecord)
    ensures r.id == now && r.creatorEmail == creator
    ensures r.status == PendingFeedback && SignOffOf(r) == Unsigned
    ensures FormOf(r) == form
    ensures r.attachmentName.None? <==> form.attachmentName == ""
    ensures r.attachmentData.None? <==> form.attachmentData == ""
  {
    LocalRecord(now, form.callDetails, form.agentName, form.registrationDate, form.callDate,
                creator, form.coordinator, form.monitoringId, form.serviceLevel,
                OrNull(form.attachmentName), OrNull(form.attachmentData),
                form.endUserError, form.businessCriticalError, form.complianceError,
                form.nonCriticalError, None, None, None, None, None, None, PendingFeedback)
  }

  /** `{ ...r, ...formData }`: every form field overwrites, the rest of `r` stays. */
  function Overlaid(r: LocalRecord, form: Form): (o: LocalRecord)
    ensures FormOf(o) == form
    ensures o.attachmentName == Some(form.attachmentName) && o.attachmentData == Some(form.attachmentData)
    ensures o.id == r.id && o.creatorEmail == r.creatorEmail
    ensures o.status == r.status && SignOffOf(o) == SignOffOf(r)
  {
    r.(callDetails := form.callDetails, agentName := form.agentName,
       registrationDate := form.registrationDate, callDate := form.callDate,
       coordinator := form.coordinator, monitoringId := form.monitoringId,
       serviceLevel := form.serviceLevel, attachmentName := Some(form.attachmentName),
       attachmentData := Some(form.attachmentData), endUserError := form.endUserError,
       businessCriticalError := form.businessCriticalError,
       complianceError := form.complianceError, nonCriticalError := form.nonCriticalError)
  }

  /** The array `handleSubmitRecord` saves. */
  function Submitted(records: seq<LocalRecord>, userEmail: Option<string>, editingId: Option<int>,
                     form: Form, now: int): (r: seq<LocalRecord>)
    ensures !SignedIn(userEmail) ==> r == records
    ensures SignedIn(userEmail) && Editing(editingId) ==>
      && |r| == |records|
      && forall i :: 0 <= i < |r| ==>
           && r[i].id == records[i].id
           && r[i].creatorEmail == records[i].creatorEmail
           && r[i].status == records[i].status
           && SignOffOf(r[i]) == SignOffOf(records[i])
           && (records[i].id == editingId.value ==>
                 FormOf(r[i]) == form
                 && r[i].attachmentName == Some(form.attachmentName)
                 && r[i].attachmentData == Some(form.attachmentData))
           && (records[i].id != editingId.value ==> r[i] == records[i])
    ensures SignedIn(userEmail) && !Editing(editingId) ==>
      && |r| == |records| + 1
      && r[..|records|] == records
      && r[|records|].id == now
      && r[|records|].creatorEmail == userEmail.value
      && r[|records|].status == PendingFeedback
      && SignOffOf(r[|records|]) == Unsigned
      && FormOf(r[|records|]) == form
      && (r[|records|].attachmentName.None? <==> form.attachmentName == "")
      && (r[|records|].attachmentData.None? <==> form.attachmentData == "")
  {
    if !SignedIn(userEmail) then records
    else if Editing(editingId) then
      seq(|records|, i requires 0 <= i < |records| =>
        if records[i].id == editingId.value then Overlaid(records[i], form) else records[i])
    else
      records + [NewLocalRecord(form, userEmail.value, now)]
  }

  // ---------------------------------------------------------------------------
  // The component's state
  // ---------------------------------------------------------------------------

  predicate OpensWith(a: Account, email: string, password: string)
  {
    a.email == email && a.password == password
  }

  ghost predicate EmailTaken(accounts: seq<Account>, email: string)
  {
    exists i :: 0 <= i < |accounts| && accounts[i].email == email
  }

  ghost predicate UniqueEmails(accounts: seq<Account>)
  {
    forall i, j :: 0 <= i < j < |accounts| ==> accounts[i].email != accounts[j].email
  }

  class LocalApp {
    /** The `local_accounts` array. */
    var accounts: seq<Account>
    /** The session: `quality_guard_email` and `quality_guard_role`. */
    var userEmail: Option<string>
    var userRole: Option<string>
    var authError: Option<Notice>
    var isRegistering: bool
    /** The `local_quality_records` array. */
    var records: seq<LocalRecord>

    /** The component as mounted over what local storage holds. */
    constructor (storedAccounts: seq<Account>, storedRecords: seq<LocalRecord>,
                 storedEmail: Option<string>, storedRole: Option<string>)
      ensures accounts == storedAccounts && records == storedRecords
      ensures userEmail == storedEmail && userRole == storedRole
      ensures authError == None && !isRegistering
    {
      accounts := storedAccounts;
      records := storedRecords;
      userEmail := storedEmail;
      userRole := storedRole;
      authError := None;
      isRegistering := false;
    }

    /** `handleRegister`, with the e-mail, password and role inputs. */
    method Register(loginEmail: string, password: string, role: string)
      modifies this
      ensures userEmail == old(userEmail) && userRole == old(userRole) && records == old(records)
      ensures EmailTaken(old(accounts), loginEmail) ==>
        && accounts == old(accounts)
        && authError == Some(AlreadyRegistered)
        && isRegistering == old(isRegistering)
      ensures !EmailTaken(old(accounts), loginEmail) ==>
        && accounts == old(accounts) + [Account(loginEmail, password, role)]
        && authError == Some(AccountCreated)
        && !isRegistering
      ensures UniqueEmails(old(accounts)) ==> UniqueEmails(accounts)
    {
      var taken := First(accounts, (a: Account) => a.email == loginEmail);
      if taken.Some? {
        authError := Some(AlreadyRegistered);
        return;
      }
      accounts := accounts + [Account(loginEmail, password, role)];
      isRegistering := false;
      authError := Some(AccountCreated);
    }

    /** `handleLogin`, with the e-mail and password inputs. */
    method Login(loginEmail: string, password: string)
      modifies this
      ensures accounts == old(accounts) && records == old(records)
      ensures isRegistering == old(isRegistering)
      ensures authError.None? <==>
        exists i :: 0 <= i < |accounts| && OpensWith(accounts[i], loginEmail, password)
      ensures authError.Some? ==>
        authError == Some(WrongCredentials) && userEmail == old(userEmail) && userRole == old(userRole)
      ensures authError.None? ==>
        exists i :: 0 <= i < |accounts| && OpensWith(accounts[i], loginEmail, password)
          && (forall j :: 0 <= j < i ==> !OpensWith(accounts[j], loginEmail, password))
          && userEmail == Some(accounts[i].email) && userRole == Some(accounts[i].role)
    {
      authError := None;
      var found := First(accounts, (a: Account) => OpensWith(a, loginEmail, password));
      if found.Some? {
        var user := accounts[found.value];
        userEmail := Some(user.email);
        userRole := Some(user.role);
      } else {
        authError := Some(WrongCredentials);
      }
    }

    /** `handleLogout`: the session is cleared, nothing else changes. */
    method Logout()
      modifies this
      ensures userEmail == None && userRole == None
      ensures accounts == old(accounts) && records == old(records)
      ensures authError == old(authError) && isRegistering == old(isRegistering)
    {
      userEmail := None;
      userRole := None;
    }

    /** `handleSubmitRecord` then `saveRecordsLocal`; `now` is `Date.now()`. */
    method SubmitRecord(editingId: Option<int>, form: Form, now: int)
      modifies this
      ensures records == Submitted(old(records), userEmail, editingId, form, now)
      ensures accounts == old(accounts) && userEmail == old(userEmail) && userRole == old(userRole)
      ensures authError == old(authError) && isRegistering == old(isRegistering)
    {
      records := Submitted(records, userEmail, editingId, form, now);
    }
  }

  /** A fresh e-mail registered and then used to log in opens a session with the
      role chosen at registration. */
  method RegisterThenLogIn(stored: seq<Account>, records: seq<LocalRecord>,
                           email: string, password: string, role: string)
    returns (session: Option<string>, sessionRole: Option<string>)
    requires !EmailTaken(stored, email)
    ensures session == Some(email) && sessionRole == Some(role)
  {
    var app := new LocalApp(stored, records, None, None);
    app.Register(email, password, role);
    assert app.accounts[|stored|] == Account(email, password, role);
    assert forall j :: 0 <= j < |stored| ==> !OpensWith(app.accounts[j], email, password);
    app.Login(email, password);
    session, sessionRole := app.userEmail, app.userRole;
  }
}

