/** The change workflow of change/service.go: drafts are submitted, approved and merged under role guards. */
module ChangeWorkflow {
  import opened Text

  datatype Status = Draft | Submitted | Approved | Merged
  datatype Role = Viewer | Deployer | Admin
  datatype Operation = CreateApplication | UpdateApplication | Redeploy | UpdatePolicies | Unsupported(name: string)
  datatype WriteMode = PullRequest | Direct | OtherMode(name: string)

  /** An environment of the catalog; None is the empty write mode. */
  datatype Environment = Environment(id: string, default: bool, writeMode: Option<WriteMode>)
  datatype Project = Project(id: string, environments: seq<Environment>, prodPRRequired: bool)

  datatype Request = Request(operation: Operation, environment: string, hasPolicies: bool)

  datatype Record = Record(
    id: string, project: string, environment: string, writeMode: WriteMode, status: Status, request: Request,
    createdBy: string, approvedBy: string, mergedBy: string)

  datatype Error =
    | NotFound | Unauthorized | RequiresDeployer | RequiresAdmin | InvalidOperation
    | SubmissionRequired | ApprovalRequired | StateConflict
    | OperationFailed | StoreFailed

  /** The caller: the role is the one the project gives the user, None if it gives none. */
  datatype Caller = Caller(user: string, role: Option<Role>)

  predicate CanDeploy(role: Role) {
    role.Deployer? || role.Admin?
  }

  // ---------------------------------------------------------------- environments and write modes

  function DefaultEnvironment(environments: seq<Environment>): string {
    if environments == [] then "shared"
    else if environments[0].default then environments[0].id
    else DefaultEnvironment(environments[1..])
  }

  function ResolveEnvironment(p: Project, requested: string): string {
    if TrimSpace(requested) != "" then TrimSpace(requested) else DefaultEnvironment(p.environments)
  }

  predicate IsFirstDefault(environments: seq<Environment>, k: nat) {
    k < |environments| && environments[k].default && forall j :: 0 <= j < k ==> !environments[j].default
  }

  /** The trimmed request; else the first default environment; else "shared". */
  lemma {:induction false} ResolvesTo(p: Project, requested: string, k: nat)
    ensures !IsBlank(requested) ==> ResolveEnvironment(p, requested) == TrimSpace(requested)
    ensures IsBlank(requested) && IsFirstDefault(p.environments, k) ==> ResolveEnvironment(p, requested) == p.environments[k].id
    ensures IsBlank(requested) && (forall j :: 0 <= j < |p.environments| ==> !p.environments[j].default) ==>
              ResolveEnvironment(p, requested) == "shared"
  {
    TrimSpaceBlank(requested);
    hide IsBlank, TrimSpace;
    FirstDefault(p.environments, k);
  }

  lemma {:induction false} FirstDefault(environments: seq<Environment>, k: nat)
    ensures IsFirstDefault(environments, k) ==> DefaultEnvironment(environments) == environments[k].id
    ensures (forall j :: 0 <= j < |environments| ==> !environments[j].default) ==> DefaultEnvironment(environments) == "shared"
  {
    if environments != [] {
      FirstDefault(environments[1..], if k > 0 then k - 1 else 0);
    }
  }

  /** The explicit write mode of the first environment with this id. */
  function ExplicitMode(environments: seq<Environment>, id: string): Option<WriteMode> {
    if environments == [] then None
    else if environments[0].id == id then environments[0].writeMode
    else ExplicitMode(environments[1..], id)
  }

  function ResolveWriteMode(p: Project, environment: string): WriteMode {
    var explicit := ExplicitMode(p.environments, environment);
    if explicit.Some? then explicit.value
    else if environment == "prod" && p.prodPRRequired then PullRequest
    else Direct
  }

  predicate IsFirstWithId(environments: seq<Environment>, id: string, k: nat) {
    k < |environments| && environments[k].id == id && forall j :: 0 <= j < k ==> environments[j].id != id
  }

  /** The mode the environment states; where it states none, a pull request for prod in a project that asks for it. */
  lemma WriteModeIs(p: Project, environment: string, k: nat)
    ensures IsFirstWithId(p.environments, environment, k) && p.environments[k].writeMode.Some? ==>
              ResolveWriteMode(p, environment) == p.environments[k].writeMode.value
    ensures (IsFirstWithId(p.environments, environment, k) && p.environments[k].writeMode.None?)
            || (forall j :: 0 <= j < |p.environments| ==> p.environments[j].id != environment) ==>
              ResolveWriteMode(p, environment) == if environment == "prod" && p.prodPRRequired then PullRequest else Direct
  {
    FirstExplicit(p.environments, environment, k);
  }

  lemma {:induction false} FirstExplicit(environments: seq<Environment>, id: string, k: nat)
    ensures IsFirstWithId(environments, id, k) ==> ExplicitMode(environments, id) == environments[k].writeMode
    ensures (forall j :: 0 <= j < |environments| ==> environments[j].id != id) ==> ExplicitMode(environments, id) == None
  {
    if environments != [] {
      FirstExplicit(environments[1..], id, if k > 0 then k - 1 else 0);
    }
  }

  /** The guard of service.go that sends a direct operation to this workflow. */
  predicate RequiresChangeFlow(p: Project, environment: string) {
    || (exists k :: 0 <= k < |p.environments| && p.environments[k].id == environment && p.environments[k].writeMode == Some(PullRequest))
    || (environment == "prod" && p.prodPRRequired)
  }

  lemma {:induction false} ExplicitModeFound(environments: seq<Environment>, id: string)
    requires forall i, j :: 0 <= i < j < |environments| ==> environments[i].id != environments[j].id
    ensures forall k :: 0 <= k < |environments| && environments[k].id == id ==> ExplicitMode(environments, id) == environments[k].writeMode
    ensures ExplicitMode(environments, id).Some? ==> exists k :: 0 <= k < |environments| && environments[k].id == id
  {
    if environments != [] {
      var rest := environments[1..];
      ExplicitModeFound(rest, id);
      assert forall k :: 1 <= k < |environments| ==> environments[k] == rest[k - 1];
      if environments[0].id != id && ExplicitMode(environments, id).Some? {
        var k :| 0 <= k < |rest| && rest[k].id == id;
        assert environments[k + 1].id == id;
      }
    }
  }

  /** Guard and workflow agree on which environments need a pull request, except for a prod environment whose explicit
      mode is another one although the project asks for pull requests there. */
  lemma GuardAgreesWithWorkflow(p: Project, environment: string)
    requires forall i, j :: 0 <= i < j < |p.environments| ==> p.environments[i].id != p.environments[j].id
    ensures (ResolveWriteMode(p, environment) == PullRequest <==> RequiresChangeFlow(p, environment))
            <==> !(environment == "prod" && p.prodPRRequired
                   && ExplicitMode(p.environments, environment) !in {None, Some(PullRequest)})
  {
    ExplicitModeFound(p.environments, environment);
    if ExplicitMode(p.environments, environment) == Some(PullRequest) {
      var k :| 0 <= k < |p.environments| && p.environments[k].id == environment;
      assert p.environments[k].writeMode == Some(PullRequest);
    }
  }

  // ---------------------------------------------------------------- what the service does

  /** The steps of a change that took effect, as an observer would log them. */
  datatype Milestone =
    | CreatedBy(user: string, role: Role)
    | SubmittedBy(user: string, role: Role)
    | ApprovedBy(user: string, role: Role)
    | MergedBy(user: string, role: Role)

  datatype Entry =
    | Reached(id: string, milestone: Milestone)
    | Applied(id: string)      // the merge's operation was carried out
    | UpdateLost(id: string)   // and the change could not be stored as merged

  datatype State = State(records: map<string, Record>, trace: seq<Entry>)

  predicate IsSupported(operation: Operation) {
    !operation.Unsupported?
  }

  /** The answers of calls outside this model: validation of images, the operation a merge applies, the store. */
  datatype Outcomes = Outcomes(valid: bool, operationSucceeds: bool, storeSucceeds: bool)

  function Log(s: State, record: Record, milestone: Milestone): State {
    State(s.records[record.id := record], s.trace + [Reached(record.id, milestone)])
  }

  function NewRecord(caller: Caller, p: Project, request: Request, id: string): Record {
    var environment := ResolveEnvironment(p, request.environment);
    Record(id, p.id, environment, ResolveWriteMode(p, environment), Draft, request, caller.user, "", "")
  }

  function CreatedChange(s: State, caller: Caller, p: Project, request: Request, id: string, o: Outcomes): (State, Option<Error>) {
    if caller.role.None? then (s, Some(Unauthorized))
    else if !CanDeploy(caller.role.value) then (s, Some(RequiresDeployer))
    else if !IsSupported(request.operation) then (s, Some(InvalidOperation))
    else if (request.operation.CreateApplication? || request.operation.Redeploy?) && !o.valid then (s, Some(OperationFailed))
    else if !o.storeSucceeds then (s, Some(StoreFailed))
    else (Log(s, NewRecord(caller, p, request, id), CreatedBy(caller.user, caller.role.value)), None)
  }

  function SubmittedChange(s: State, caller: Caller, id: string, o: Outcomes): (State, Option<Error>) {
    if id !in s.records then (s, Some(NotFound))
    else if caller.role.None? then (s, Some(Unauthorized))
    else if !CanDeploy(caller.role.value) then (s, Some(RequiresDeployer))
    else if s.records[id].status != Draft then (s, Some(StateConflict))
    else if !o.storeSucceeds then (s, Some(StoreFailed))
    else (Log(s, s.records[id].(status := Submitted), SubmittedBy(caller.user, caller.role.value)), None)
  }

  function ApprovedChange(s: State, caller: Caller, id: string, o: Outcomes): (State, Option<Error>) {
    if id !in s.records then (s, Some(NotFound))
    else if caller.role.None? then (s, Some(Unauthorized))
    else if caller.role.value != Admin then (s, Some(RequiresAdmin))
    else if s.records[id].status == Draft then (s, Some(SubmissionRequired))
    else if s.records[id].status != Submitted then (s, Some(StateConflict))
    else if !o.storeSucceeds then (s, Some(StoreFailed))
    else (Log(s, s.records[id].(status := Approved, approvedBy := caller.user), ApprovedBy(caller.user, Admin)), None)
  }

  /** Why a change may not be merged yet, or not any more. */
  function MergeRefusal(record: Record): Option<Error> {
    if record.writeMode.PullRequest? then
      match record.status
      case Approved => None
      case Merged => Some(StateConflict)
      case _ => Some(ApprovalRequired)
    else
      match record.status
      case Draft => Some(SubmissionRequired)
      case Merged => Some(StateConflict)
      case _ => None
  }

  function MergedChange(s: State, caller: Caller, id: string, o: Outcomes): (State, Option<Error>) {
    if id !in s.records then (s, Some(NotFound))
    else if caller.role.None? then (s, Some(Unauthorized))
    else if !CanDeploy(caller.role.value) then (s, Some(RequiresDeployer))
    else
      var record := s.records[id];
      if MergeRefusal(record).Some? then (s, MergeRefusal(record))
      else if !IsSupported(record.request.operation) || (record.request.operation.UpdatePolicies? && !record.request.hasPolicies)
        then (s, Some(InvalidOperation))
      else if !o.operationSucceeds then (s, Some(OperationFailed))
      else if !o.storeSucceeds then (s.(trace := s.trace + [Applied(id), UpdateLost(id)]), Some(StoreFailed))
      else (Log(s.(trace := s.trace + [Applied(id)]), record.(status := Merged, mergedBy := caller.user),
                MergedBy(caller.user, caller.role.value)), None)
  }

  // ---------------------------------------------------------------- who may do what

  /** A new change is drafted exactly for a deployer or an admin, if the operation is known and nothing outside refuses. */
  lemma CreateIsAllowed(s: State, caller: Caller, p: Project, request: Request, id: string, o: Outcomes)
    ensures var (s', error) := CreatedChange(s, caller, p, request, id, o);
            && (error == None <==>
                  && (caller.role == Some(Deployer) || caller.role == Some(Admin)) && o.storeSucceeds
                  && match request.operation
                     case CreateApplication => o.valid
                     case Redeploy => o.valid
                     case UpdateApplication => true
                     case UpdatePolicies => true
                     case Unsupported(_) => false)
            && (error != None ==> s' == s)
            && (caller.role == None ==> error == Some(Unauthorized)) && (caller.role == Some(Viewer) ==> error == Some(RequiresDeployer))
            && (error == None ==>
                  && id in s'.records && s'.records == s.records[id := s'.records[id]]
                  && var record := s'.records[id];
                     && record.id == id && record.project == p.id && record.request == request && record.status == Draft
                     && record.createdBy == caller.user && record.approvedBy == "" && record.mergedBy == "")
  {
    hide ResolveEnvironment, ResolveWriteMode;
  }

  /** A draft is submitted exactly by a deployer or an admin. */
  lemma SubmitIsAllowed(s: State, caller: Caller, id: string, o: Outcomes)
    requires id in s.records ==> s.records[id].id == id
    ensures var (s', error) := SubmittedChange(s, caller, id, o);
            && (error == None <==>
                  && id in s.records && (caller.role == Some(Deployer) || caller.role == Some(Admin))
                  && s.records[id].status == Draft && o.storeSucceeds)
            && (error == None ==> s'.records == s.records[id := s.records[id].(status := Submitted)])
            && (error != None ==> s' == s)
            && (id in s.records && caller.role == None ==> error == Some(Unauthorized))
            && (id in s.records && caller.role == Some(Viewer) ==> error == Some(RequiresDeployer))
  {
  }

  /** A submitted change is approved exactly by an admin. */
  lemma ApproveIsAllowed(s: State, caller: Caller, id: string, o: Outcomes)
    requires id in s.records ==> s.records[id].id == id
    ensures var (s', error) := ApprovedChange(s, caller, id, o);
            && (error == None <==>
                  id in s.records && caller.role == Some(Admin) && s.records[id].status == Submitted && o.storeSucceeds)
            && (error == None ==>
                  s'.records == s.records[id := s.records[id].(status := Approved, approvedBy := caller.user)])
            && (error != None ==> s' == s)
            && (id in s.records && caller.role == None ==> error == Some(Unauthorized))
            && (id in s.records && (caller.role == Some(Viewer) || caller.role == Some(Deployer)) ==> error == Some(RequiresAdmin))
            && (error == Some(SubmissionRequired) ==> s.records[id].status == Draft)
  {
  }

  /** A merge goes through exactly for a deployer or an admin, once a pull request is approved and any other change
      submitted; who may not merge and what is not ready are told apart. */
  lemma MergeIsAllowed(s: State, caller: Caller, id: string, o: Outcomes)
    requires id in s.records ==> s.records[id].id == id
    ensures var (s', error) := MergedChange(s, caller, id, o);
            var mayMerge := id in s.records && (caller.role == Some(Deployer) || caller.role == Some(Admin));
            && (error == None <==>
                  && mayMerge && o.operationSucceeds && o.storeSucceeds
                  && var record := s.records[id];
                     && (record.status == Approved || (record.writeMode != PullRequest && record.status == Submitted))
                     && match record.request.operation
                        case CreateApplication => true
                        case UpdateApplication => true
                        case Redeploy => true
                        case UpdatePolicies => record.request.hasPolicies
                        case Unsupported(_) => false)
            && (error == None ==> s'.records == s.records[id := s.records[id].(status := Merged, mergedBy := caller.user)])
            && (error != None ==> s'.records == s.records) && (error !in {None, Some(StoreFailed)} ==> s' == s)
            && (id in s.records && caller.role == None ==> error == Some(Unauthorized))
            && (id in s.records && caller.role == Some(Viewer) ==> error == Some(RequiresDeployer))
            && (error == Some(ApprovalRequired) <==>
                  mayMerge && s.records[id].writeMode == PullRequest && s.records[id].status in {Draft, Submitted})
            && (error == Some(SubmissionRequired) <==>
                  mayMerge && s.records[id].writeMode != PullRequest && s.records[id].status == Draft)
            && (error == Some(StateConflict) <==> mayMerge && s.records[id].status == Merged)
  {
  }

  class Service {
    var records: map<string, Record>
    ghost var trace: seq<Entry>

    ghost function View(): State
      reads this
    {
      State(records, trace)
    }

    constructor ()
      ensures View() == State(map[], [])
    {
      records, trace := map[], [];
    }

    /** Store.Update: the record under its own id, replacing what was there. */
    method Store(record: Record, o: Outcomes) returns (error: Option<Error>)
      modifies this`records
      ensures error == if o.storeSucceeds then None else Some(StoreFailed)
      ensures records == if o.storeSucceeds then old(records)[record.id := record] else old(records)
    {
      if !o.storeSucceeds {
        return Some(StoreFailed);
      }
      records := records[record.id := record];
      return None;
    }

    method Create(caller: Caller, p: Project, request: Request, id: string, o: Outcomes) returns (error: Option<Error>)
      modifies this
      ensures (View(), error) == CreatedChange(old(View()), caller, p, request, id, o)
    {
      if caller.role.None? {
        return Some(Unauthorized);
      }
      if !CanDeploy(caller.role.value) {
        return Some(RequiresDeployer);
      }
      var environment := ResolveEnvironment(p, request.environment);
      var writeMode := ResolveWriteMode(p, environment);
      var record := Record(id, p.id, environment, writeMode, Draft, request, caller.user, "", "");
      if !IsSupported(request.operation) {
        return Some(InvalidOperation);
      }
      match request.operation {
        case CreateApplication => if !o.valid { return Some(OperationFailed); }
        case Redeploy => if !o.valid { return Some(OperationFailed); }
        case _ =>
      }
      error := Store(record, o);
      if error.None? {
        trace := trace + [Reached(id, CreatedBy(caller.user, caller.role.value))];
      }
    }

    method Submit(caller: Caller, id: string, o: Outcomes) returns (error: Option<Error>)
      requires forall i :: i in records ==> records[i].id == i
      modifies this
      ensures (View(), error) == SubmittedChange(old(View()), caller, id, o)
    {
      if id !in records {
        return Some(NotFound);
      }
      if caller.role.None? {
        return Some(Unauthorized);
      }
      if !CanDeploy(caller.role.value) {
        return Some(RequiresDeployer);
      }
      var record := records[id];
      if record.status != Draft {
        return Some(StateConflict);
      }
      error := Store(record.(status := Submitted), o);
      if error.None? {
        trace := trace + [Reached(id, SubmittedBy(caller.user, caller.role.value))];
      }
    }

    method Approve(caller: Caller, id: string, o: Outcomes) returns (error: Option<Error>)
      requires forall i :: i in records ==> records[i].id == i
      modifies this
      ensures (View(), error) == ApprovedChange(old(View()), caller, id, o)
    {
      if id !in records {
        return Some(NotFound);
      }
      if caller.role.None? {
        return Some(Unauthorized);
      }
      if !caller.role.value.Admin? {
        return Some(RequiresAdmin);
      }
      var record := records[id];
      match record.status {
        case Draft => return Some(SubmissionRequired);
        case Submitted =>
        case _ => return Some(StateConflict);
      }
      error := Store(record.(status := Approved, approvedBy := caller.user), o);
      if error.None? {
        trace := trace + [Reached(id, ApprovedBy(caller.user, caller.role.value))];
      }
    }

    method Merge(caller: Caller, id: string, o: Outcomes) returns (error: Option<Error>)
      requires forall i :: i in records ==> records[i].id == i
      modifies this
      ensures (View(), error) == MergedChange(old(View()), caller, id, o)
    {
      if id !in records {
        return Some(NotFound);
      }
      if caller.role.None? {
        return Some(Unauthorized);
      }
      if !CanDeploy(caller.role.value) {
        return Some(RequiresDeployer);
      }
      var record := records[id];
      if record.writeMode.PullRequest? {
        if record.status != Approved {
          if record.status == Merged {
            return Some(StateConflict);
          }
          return Some(ApprovalRequired);
        }
      } else {
        if record.status == Draft {
          return Some(SubmissionRequired);
        }
        if record.status != Submitted && record.status != Approved {
          return Some(StateConflict);
        }
      }
      match record.request.operation {
        case UpdatePolicies => if !record.request.hasPolicies { return Some(InvalidOperation); }
        case Unsupported(_) => return Some(InvalidOperation);
        case _ =>
      }
      if !o.operationSucceeds {
        return Some(OperationFailed);
      }
      trace := trace + [Applied(id)];
      error := Store(record.(status := Merged, mergedBy := caller.user), o);
      if error.None? {
        trace := trace + [Reached(id, MergedBy(caller.user, caller.role.value))];
      } else {
        trace := trace + [UpdateLost(id)];
        assert trace == old(trace) + [Applied(id), UpdateLost(id)];
      }
    }
  }

  // ---------------------------------------------------------------- runs

  datatype Event =
    | Create(caller: Caller, project: Project, request: Request, id: string, o: Outcomes)
    | Submit(caller: Caller, id: string, o: Outcomes)
    | Approve(caller: Caller, id: string, o: Outcomes)
    | Merge(caller: Caller, id: string, o: Outcomes)

  function Next(s: State, e: Event): State {
    match e
    case Create(caller, project, request, id, o) => CreatedChange(s, caller, project, request, id, o).0
    case Submit(caller, id, o) => SubmittedChange(s, caller, id, o).0
    case Approve(caller, id, o) => ApprovedChange(s, caller, id, o).0
    case Merge(caller, id, o) => MergedChange(s, caller, id, o).0
  }

  /** Calls follow one another, and every new change gets an id that is not in use. */
  predicate IsRun(s: State, es: seq<Event>)
    decreases |es|
  {
    |es| > 0 ==> (es[0].Create? ==> es[0].id !in s.records) && IsRun(Next(s, es[0]), es[1..])
  }

  function Final(s: State, es: seq<Event>): State
    requires IsRun(s, es)
    decreases |es|
  {
    if |es| == 0 then s else Final(Next(s, es[0]), es[1..])
  }

  const INIT := State(map[], [])

  /** The milestones of one change, in order. */
  function Milestones(trace: seq<Entry>, id: string): seq<Milestone> {
    if trace == [] then []
    else
      var last := trace[|trace| - 1];
      Milestones(trace[..|trace| - 1], id) + if last.Reached? && last.id == id then [last.milestone] else []
  }

  lemma MilestonesAfter(trace: seq<Entry>, e: Entry, id: string)
    ensures Milestones(trace + [e], id) == Milestones(trace, id) + if e.Reached? && e.id == id then [e.milestone] else []
  {
    assert (trace + [e])[..|trace|] == trace;
  }

  /** The milestones a record's status and mode stand for, each under the role it takes. */
  ghost predicate IsPath(record: Record, ms: seq<Milestone>) {
    && |ms| >= 1 && ms[0].CreatedBy? && ms[0].user == record.createdBy
    && (ms[0].role == Deployer || ms[0].role == Admin)
    && (!record.status.Draft? ==> |ms| >= 2 && ms[1].SubmittedBy? && (ms[1].role == Deployer || ms[1].role == Admin))
    && match record.status
       case Draft => |ms| == 1
       case Submitted => |ms| == 2
       case Approved => |ms| == 3 && ms[2] == ApprovedBy(record.approvedBy, Admin)
       case Merged =>
         var n := |ms| - 1;
         && ms[n].MergedBy? && ms[n].user == record.mergedBy && (ms[n].role == Deployer || ms[n].role == Admin)
         && if n == 3 then ms[2] == ApprovedBy(record.approvedBy, Admin) else n == 2 && !record.writeMode.PullRequest?
  }

  ghost predicate ChangeOk(s: State, id: string) {
    if id in s.records then s.records[id].id == id && IsPath(s.records[id], Milestones(s.trace, id))
    else Milestones(s.trace, id) == []
  }

  ghost predicate EffectsOk(s: State, id: string) {
    multiset(s.trace)[Applied(id)]
    == multiset(s.trace)[UpdateLost(id)] + if IsMerged(s, id) then 1 else 0
  }

  function Rank(status: Status): nat {
    match status case Draft => 0 case Submitted => 1 case Approved => 2 case Merged => 3
  }

  /** A step on one change: who created it, where it goes and how it is written stay; the status only moves forward. */
  predicate MovesForward(s: State, s': State, id: string) {
    id in s.records ==>
      && id in s'.records
      && Rank(s.records[id].status) <= Rank(s'.records[id].status)
      && s'.records[id] == s.records[id].(status := s'.records[id].status, approvedBy := s'.records[id].approvedBy,
                                          mergedBy := s'.records[id].mergedBy)
  }

  lemma CreateKeepsChange(s: State, e: Event, id: string)
    requires ChangeOk(s, id) && e.Create? && e.id !in s.records
    ensures ChangeOk(Next(s, e), id) && MovesForward(s, Next(s, e), id)
  {
    hide ResolveEnvironment, ResolveWriteMode, Milestones;
    if Next(s, e) != s {
      MilestonesAfter(s.trace, Reached(e.id, CreatedBy(e.caller.user, e.caller.role.value)), id);
    }
  }

  lemma SubmitKeepsChange(s: State, e: Event, id: string)
    requires ChangeOk(s, id) && ChangeOk(s, e.id) && e.Submit?
    ensures ChangeOk(Next(s, e), id) && MovesForward(s, Next(s, e), id)
  {
    hide Milestones;
    if Next(s, e) != s {
      MilestonesAfter(s.trace, Reached(e.id, SubmittedBy(e.caller.user, e.caller.role.value)), id);
    }
  }

  lemma ApproveKeepsChange(s: State, e: Event, id: string)
    requires ChangeOk(s, id) && ChangeOk(s, e.id) && e.Approve?
    ensures ChangeOk(Next(s, e), id) && MovesForward(s, Next(s, e), id)
  {
    hide Milestones;
    if Next(s, e) != s {
      MilestonesAfter(s.trace, Reached(e.id, ApprovedBy(e.caller.user, Admin)), id);
    }
  }

  lemma MergeKeepsChange(s: State, e: Event, id: string)
    requires ChangeOk(s, id) && ChangeOk(s, e.id) && e.Merge?
    ensures ChangeOk(Next(s, e), id) && MovesForward(s, Next(s, e), id)
  {
    hide Milestones;
    if Next(s, e) != s {
      var mid := s.trace + [Applied(e.id)];
      MilestonesAfter(s.trace, Applied(e.id), id);
      MilestonesAfter(mid, Reached(e.id, MergedBy(e.caller.user, e.caller.role.value)), id);
      MilestonesAfter(mid, UpdateLost(e.id), id);
      assert s.trace + [Applied(e.id), UpdateLost(e.id)] == mid + [UpdateLost(e.id)];
    }
  }

  lemma StepKeepsChange(s: State, e: Event, id: string)
    requires ChangeOk(s, id) && ChangeOk(s, e.id) && (e.Create? ==> e.id !in s.records)
    ensures ChangeOk(Next(s, e), id) && MovesForward(s, Next(s, e), id)
  {
    hide Next, ChangeOk, MovesForward;
    match e
    case Create(_, _, _, _, _) => CreateKeepsChange(s, e, id);
    case Submit(_, _, _) => SubmitKeepsChange(s, e, id);
    case Approve(_, _, _) => ApproveKeepsChange(s, e, id);
    case Merge(_, _, _) => MergeKeepsChange(s, e, id);
  }

  lemma CountAfter(trace: seq<Entry>, e: Entry, x: Entry)
    ensures multiset(trace + [e])[x] == multiset(trace)[x] + if e == x then 1 else 0
  {
  }

  predicate IsMerged(s: State, id: string) {
    id in s.records && s.records[id].status.Merged?
  }

  /** A merge does nothing, loses its update, or merges an unmerged change. */
  lemma MergeStep(s: State, e: Event, id: string) returns (last: Option<Entry>)
    requires e.Merge? && (e.id in s.records ==> s.records[e.id].id == e.id)
    ensures last.None? ==> Next(s, e) == s
    ensures last.Some? ==> Next(s, e).trace == s.trace + [Applied(e.id)] + [last.value]
                           && (last.value == UpdateLost(e.id) || last.value.Reached?)
    ensures IsMerged(Next(s, e), id) == (IsMerged(s, id) || (last.Some? && last.value.Reached? && id == e.id))
    ensures last.Some? ==> !IsMerged(s, e.id)
  {
    last := None;
    if MergedChange(s, e.caller, e.id, e.o).0 != s {
      last := Some(if e.o.storeSucceeds then Reached(e.id, MergedBy(e.caller.user, e.caller.role.value)) else UpdateLost(e.id));
      assert s.trace + [Applied(e.id), UpdateLost(e.id)] == s.trace + [Applied(e.id)] + [UpdateLost(e.id)];
    }
  }

  lemma MergeKeepsEffects(s: State, e: Event, id: string)
    requires (e.id in s.records ==> s.records[e.id].id == e.id) && EffectsOk(s, id) && e.Merge?
    ensures EffectsOk(Next(s, e), id)
  {
    hide Next;
    var last := MergeStep(s, e, id);
    if last.Some? {
      var mid := s.trace + [Applied(e.id)];
      CountAfter(s.trace, Applied(e.id), Applied(id));
      CountAfter(s.trace, Applied(e.id), UpdateLost(id));
      CountAfter(mid, last.value, Applied(id));
      CountAfter(mid, last.value, UpdateLost(id));
      assert IsMerged(Next(s, e), id) == (IsMerged(s, id) || (last.value.Reached? && id == e.id));
    }
  }

  /** Steps other than merges log at most one milestone and merge nothing. */
  lemma OtherStep(s: State, e: Event, id: string)
    requires !e.Merge? && (e.id in s.records ==> s.records[e.id].id == e.id) && (e.Create? ==> e.id !in s.records)
    ensures IsMerged(Next(s, e), id) == IsMerged(s, id)
    ensures Next(s, e).trace == s.trace
            || exists m :: Next(s, e).trace == s.trace + [Reached(e.id, m)]
  {
    hide ResolveEnvironment, ResolveWriteMode;
  }

  lemma StepKeepsEffects(s: State, e: Event, id: string)
    requires ChangeOk(s, e.id) && EffectsOk(s, id) && (e.Create? ==> e.id !in s.records)
    ensures EffectsOk(Next(s, e), id)
  {
    hide Next, Milestones, IsPath;
    if e.Merge? {
      MergeKeepsEffects(s, e, id);
    } else {
      OtherStep(s, e, id);
      assert IsMerged(Next(s, e), id) == IsMerged(s, id);
      if Next(s, e).trace != s.trace {
        var m :| Next(s, e).trace == s.trace + [Reached(e.id, m)];
        CountAfter(s.trace, Reached(e.id, m), Applied(id));
        CountAfter(s.trace, Reached(e.id, m), UpdateLost(id));
      }
    }
  }

  ghost predicate StateOk(s: State) {
    forall id :: ChangeOk(s, id) && EffectsOk(s, id)
  }

  lemma {:induction false} RunKeepsState(s: State, es: seq<Event>, id: string)
    requires StateOk(s) && IsRun(s, es)
    ensures StateOk(Final(s, es)) && MovesForward(s, Final(s, es), id)
    decreases |es|
  {
    if |es| > 0 {
      var s' := Next(s, es[0]);
      assert ChangeOk(s, es[0].id);
      forall k ensures ChangeOk(s', k) && EffectsOk(s', k) && MovesForward(s, s', k) {
        assert ChangeOk(s, k) && EffectsOk(s, k);
        StepKeepsChange(s, es[0], k);
        StepKeepsEffects(s, es[0], k);
      }
      RunKeepsState(s', es[1..], id);
    }
  }

  lemma InitialIsOk()
    ensures StateOk(INIT)
  {
  }

  /** A merged pull request was submitted, then approved by an admin, then merged, in this order and each exactly once;
      any other merged change was submitted first. */
  lemma MergedChangesWentThrough(es: seq<Event>, id: string)
    requires IsRun(INIT, es) && id in Final(INIT, es).records && Final(INIT, es).records[id].status.Merged?
    ensures var record := Final(INIT, es).records[id];
            var ms := Milestones(Final(INIT, es).trace, id);
            && |ms| in {3, 4} && ms[0].CreatedBy? && ms[1].SubmittedBy? && ms[|ms| - 1].MergedBy?
            && ms[0].user == record.createdBy && ms[|ms| - 1].user == record.mergedBy
            && (forall k :: 0 <= k < |ms| ==> ms[k].role in {Deployer, Admin})
            && (record.writeMode.PullRequest? ==> |ms| == 4)
            && (|ms| == 4 ==> ms[2] == ApprovedBy(record.approvedBy, Admin))
  {
    hide Milestones, IsRun, Final, MovesForward;
    InitialIsOk();
    RunKeepsState(INIT, es, id);
    assert ChangeOk(Final(INIT, es), id);
    var ms := Milestones(Final(INIT, es).trace, id);
    assert |ms| == 3 || |ms| == 4;
  }

  /** Along a run the status of a change only moves forward, and its mode and request never change. */
  lemma StatusOnlyMovesForward(es: seq<Event>, more: seq<Event>, id: string)
    requires IsRun(INIT, es) && IsRun(Final(INIT, es), more)
    ensures MovesForward(Final(INIT, es), Final(Final(INIT, es), more), id)
  {
    RunKeepsState(INIT, es, id);
    RunKeepsState(Final(INIT, es), more, id);
  }

  /** A change's operation is carried out once for its one successful merge, and once more for every merge whose final
      store update failed; so it is carried out at most once if no such update fails. */
  lemma EffectsAreAccounted(es: seq<Event>, id: string)
    requires IsRun(INIT, es)
    ensures var s := Final(INIT, es);
            multiset(s.trace)[Applied(id)]
            == multiset(s.trace)[UpdateLost(id)] + if IsMerged(s, id) then 1 else 0
  {
    RunKeepsState(INIT, es, id);
    assert EffectsOk(Final(INIT, es), id);
  }

  /** A merge whose store update fails leaves the change as it was, so the same merge is let through again and calls the
      operation a second time. */
  lemma LostUpdateAppliesTwice(s: State, caller: Caller, id: string, lost: Outcomes, stored: Outcomes)
    requires id in s.records && MergedChange(s, caller, id, lost).1 == Some(StoreFailed)
    requires stored.operationSucceeds && stored.storeSucceeds
    ensures var first := MergedChange(s, caller, id, lost);
            var second := MergedChange(first.0, caller, id, stored);
            && first.0.records == s.records && second.1 == None
            && multiset(second.0.trace)[Applied(id)] == multiset(s.trace)[Applied(id)] + 2
  {
  }

  /** The environment a change or a create is resolved to is blank only if none was requested and the first default
      environment of the catalog has a blank id. */
  lemma {:induction false} ResolvedIsBlank(p: Project, requested: string)
    ensures IsBlank(ResolveEnvironment(p, requested)) <==> IsBlank(requested) && IsBlank(DefaultEnvironment(p.environments))
    ensures IsBlank(DefaultEnvironment(p.environments))
            <==> exists k :: 0 <= k < |p.environments| && p.environments[k].default && IsBlank(p.environments[k].id)
                             && forall j :: 0 <= j < k ==> !p.environments[j].default
  {
    TrimSpaceBlank(requested);
    var _, _ := TrimSpaceCuts(requested);
    if TrimSpace(requested) != "" { assert TrimSpace(requested)[0] in TrimSpace(requested); }
    hide IsBlank, TrimSpace;
    BlankDefault(p.environments);
  }

  lemma {:induction false} BlankDefault(environments: seq<Environment>)
    ensures IsBlank(DefaultEnvironment(environments))
            <==> exists k :: 0 <= k < |environments| && environments[k].default && IsBlank(environments[k].id)
                             && forall j :: 0 <= j < k ==> !environments[j].default
  {
    if environments == [] {
      var shared := "shared";
      assert shared[0] in shared;
    } else if !environments[0].default {
      var rest := environments[1..];
      BlankDefault(rest);
      hide IsBlank;
      assert forall k :: 0 < k < |environments| ==> environments[k] == rest[k - 1];
      if k :| 0 <= k < |rest| && rest[k].default && IsBlank(rest[k].id) && forall j :: 0 <= j < k ==> !rest[j].default {
        assert environments[k + 1].default;
      }
      if k :| 0 <= k < |environments| && environments[k].default && IsBlank(environments[k].id)
              && forall j :: 0 <= j < k ==> !environments[j].default {
        assert rest[k - 1].default && forall j :: 0 <= j < k - 1 ==> rest[j] == environments[j + 1];
      }
    }
  }
}
