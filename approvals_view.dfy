/** The organiser approvals screen: approve, reject with a reason, and the row states. */
module ApprovalsView {
  import opened Wrappers
  import opened Strings
  import opened Seqs
  import opened Endpoints
  import opened Http

  datatype ApprovalStatus = Pending | Approved | Rejected

  datatype Approval = Approval(id: string, userId: string, kind: string, status: ApprovalStatus, createdAt: string)

  datatype ChipColor = Success | Error | Warning

  /** The status chip: approved is green, rejected red, anything else amber. */
  function StatusColor(s: ApprovalStatus): (c: ChipColor)
    ensures c == Success <==> s == Approved
    ensures c == Error <==> s == Rejected
    ensures c == Warning <==> s != Approved && s != Rejected
  {
    if s == Approved then Success else if s == Rejected then Error else Warning
  }

  /** `rows.filter(item => item._id !== id)` */
  function RemoveById(rows: seq<Approval>, id: string): (r: seq<Approval>)
    ensures forall i :: 0 <= i < |r| ==> r[i].id != id && r[i] in rows
    ensures forall i :: 0 <= i < |rows| && rows[i].id != id ==> rows[i] in r
  {
    Filter(rows, (a: Approval) => a.id != id)
  }

  /** Removal keeps the other rows in order, and changes nothing when no row has the id. */
  lemma RemoveByIdKeepsOrder(rows: seq<Approval>, id: string)
    ensures IsSubsequence(RemoveById(rows, id), rows)
    ensures (forall i :: 0 <= i < |rows| ==> rows[i].id != id) ==> RemoveById(rows, id) == rows
  {
    FilterIsSubsequence(rows, (a: Approval) => a.id != id);
    if forall i :: 0 <= i < |rows| ==> rows[i].id != id {
      FilterAllKept(rows, (a: Approval) => a.id != id);
    }
  }

  /** Removing the same id twice is removing it once. */
  lemma RemoveByIdIdempotent(rows: seq<Approval>, id: string)
    ensures RemoveById(RemoveById(rows, id), id) == RemoveById(rows, id)
  {
    var r := RemoveById(rows, id);
    FilterAllKept(r, (a: Approval) => a.id != id);
  }

  /** The reject confirm button is disabled exactly while the reason is blank. */
  function RejectDisabled(reason: string): (d: bool)
    ensures d <==> forall i :: 0 <= i < |reason| ==> IsSpace(reason[i])
  {
    TrimEmptyIff(reason);
    Trim(reason) == ""
  }

  /** A row's buttons are disabled exactly while it is the one being processed. */
  function ButtonsDisabled(processingId: Option<string>, row: Approval): (d: bool)
    ensures d <==> processingId.Some? && processingId.value == row.id
  {
    processingId == Some(row.id)
  }

  /** `${GET_APPROVALS_REQUEST}?organiser=true`, a key src/api/endpoint.ts does not define. */
  const LoadCall := Call(Get, Unlisted("GET_APPROVALS_REQUEST", Some("?organiser=true")), NoBody, AuthConfig)

  function ApproveCall(approvalId: string): (c: Call)
    ensures c.verb == Post && c.endpoint == Unlisted("APPROVAL_ACTION", None) && c.config == AuthConfig
    ensures c.body == Json([("approvalId", JStr(approvalId)), ("action", JStr("approved"))])
  {
    Call(Post, Unlisted("APPROVAL_ACTION", None), Json([("approvalId", JStr(approvalId)), ("action", JStr("approved"))]), AuthConfig)
  }

  function RejectCall(approvalId: string, reason: string): (c: Call)
    ensures c.verb == Post && c.endpoint == Unlisted("APPROVAL_ACTION", None) && c.config == AuthConfig
    ensures c.body == Json([("approvalId", JStr(approvalId)), ("action", JStr("rejected")), ("reason", JStr(reason))])
  {
    Call(Post, Unlisted("APPROVAL_ACTION", None),
      Json([("approvalId", JStr(approvalId)), ("action", JStr("rejected")), ("reason", JStr(reason))]), AuthConfig)
  }

  class ApprovalsScreen {
    var approvals: seq<Approval>
    var loading: bool
    var processingId: Option<string>
    var openReject: bool
    var rejectReason: string
    var selectedApproval: Option<Approval>

    constructor()
      ensures approvals == [] && !loading && processingId == None
      ensures !openReject && rejectReason == "" && selectedApproval == None
    {
      approvals := [];
      loading := false;
      processingId := None;
      openReject := false;
      rejectReason := "";
      selectedApproval := None;
    }

    method BeginLoad() returns (call: Call)
      modifies this
      ensures loading && call == LoadCall
      ensures approvals == old(approvals) && processingId == old(processingId)
      ensures openReject == old(openReject) && rejectReason == old(rejectReason) && selectedApproval == old(selectedApproval)
    {
      loading := true;
      call := LoadCall;
    }

    /** `res.data.organiserRequests || []` replaces the list on success; a failure keeps it. */
    method FinishLoad(r: Response<Option<seq<Approval>>>)
      modifies this
      ensures !loading
      ensures r.Ok? ==> approvals == r.data.GetOr([])
      ensures r.Failed? ==> approvals == old(approvals)
      ensures processingId == old(processingId)
      ensures openReject == old(openReject) && rejectReason == old(rejectReason) && selectedApproval == old(selectedApproval)
    {
      if r.Ok? {
        approvals := r.data.GetOr([]);
      }
      loading := false;
    }

    method BeginApprove(approvalId: string) returns (call: Call)
      modifies this
      ensures processingId == Some(approvalId) && call == ApproveCall(approvalId)
      ensures approvals == old(approvals) && loading == old(loading)
      ensures openReject == old(openReject) && rejectReason == old(rejectReason) && selectedApproval == old(selectedApproval)
    {
      processingId := Some(approvalId);
      call := ApproveCall(approvalId);
    }

    /** After the approve request: the rows of that id go only on success; the in-flight
        id is cleared either way. */
    method FinishApprove(approvalId: string, r: Response<MessageData>)
      modifies this
      ensures processingId == None
      ensures r.Ok? ==> approvals == RemoveById(old(approvals), approvalId)
      ensures r.Failed? ==> approvals == old(approvals)
      ensures loading == old(loading)
      ensures openReject == old(openReject) && rejectReason == old(rejectReason) && selectedApproval == old(selectedApproval)
    {
      if r.Ok? {
        approvals := RemoveById(approvals, approvalId);
      }
      processingId := None;
    }

    /** `openRejectModal` */
    method OpenRejectModal(row: Approval)
      modifies this
      ensures selectedApproval == Some(row) && rejectReason == "" && openReject
      ensures approvals == old(approvals) && loading == old(loading) && processingId == old(processingId)
    {
      selectedApproval := Some(row);
      rejectReason := "";
      openReject := true;
    }

    method SetRejectReason(v: string)
      modifies this
      ensures rejectReason == v
      ensures approvals == old(approvals) && loading == old(loading) && processingId == old(processingId)
      ensures openReject == old(openReject) && selectedApproval == old(selectedApproval)
    {
      rejectReason := v;
    }

    /** Cancel, or closing the dialog: it only closes; the selection and the reason stay. */
    method CloseRejectModal()
      modifies this
      ensures !openReject
      ensures approvals == old(approvals) && loading == old(loading) && processingId == old(processingId)
      ensures rejectReason == old(rejectReason) && selectedApproval == old(selectedApproval)
    {
      openReject := false;
    }

    /** `submitReject` up to the request: nothing happens without a selected row. The
        returned row is the one the handler goes on with. */
    method BeginReject() returns (call: Option<Call>, target: Option<Approval>)
      modifies this
      ensures target == old(selectedApproval)
      ensures target.None? ==> call == None && processingId == old(processingId)
      ensures target.Some? ==> call == Some(RejectCall(target.value.id, rejectReason)) && processingId == Some(target.value.id)
      ensures approvals == old(approvals) && loading == old(loading)
      ensures openReject == old(openReject) && rejectReason == old(rejectReason) && selectedApproval == old(selectedApproval)
    {
      target := selectedApproval;
      if selectedApproval.None? {
        call := None;
        return;
      }
      processingId := Some(selectedApproval.value.id);
      call := Some(RejectCall(selectedApproval.value.id, rejectReason));
    }

    /** After the reject request: on success the row goes and the dialog state is reset;
        the in-flight id is cleared either way. */
    method FinishReject(target: Approval, r: Response<MessageData>)
      modifies this
      ensures processingId == None && loading == old(loading)
      ensures r.Ok? ==> approvals == RemoveById(old(approvals), target.id)
      ensures r.Ok? ==> !openReject && selectedApproval == None && rejectReason == ""
      ensures r.Failed? ==> approvals == old(approvals) && openReject == old(openReject)
      ensures r.Failed? ==> selectedApproval == old(selectedApproval) && rejectReason == old(rejectReason)
    {
      if r.Ok? {
        approvals := RemoveById(approvals, target.id);
        openReject := false;
        selectedApproval := None;
        rejectReason := "";
      }
      processingId := None;
    }
  }

  /** Approving a row that is on screen takes it off; a failed approve leaves the row and
      its buttons enabled again. */
  method ApproveScenario(rows: seq<Approval>, k: nat, ok: bool) returns (after: seq<Approval>, idle: bool)
    requires k < |rows|
    ensures ok ==> forall i :: 0 <= i < |after| ==> after[i].id != rows[k].id
    ensures !ok ==> after == rows
    ensures idle
  {
    var screen := new ApprovalsScreen();
    screen.FinishLoad(Ok(Some(rows)));
    var _ := screen.BeginApprove(rows[k].id);
    var r: Response<MessageData> := if ok then Ok(MessageData(None)) else Failed(HttpError(Some(500), None));
    screen.FinishApprove(rows[k].id, r);
    after := screen.approvals;
    idle := !ButtonsDisabled(screen.processingId, rows[k]);
  }
}
