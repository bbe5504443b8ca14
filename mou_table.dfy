/** The MOU table: which rows it shows and the per-row cells and actions. */
module MouTable {
  import opened Wrappers
  import opened Strings

  const SignedStatus := "signed"
  const OtpSentStatus := "otp_sent"
  const Dash := "-"

  /** The fields of an MOU the table reads; `orgName` is `organization?.name`. */
  datatype Mou = Mou(id: string, mouNumber: Option<string>, orgName: Option<string>, status: Option<string>, pdfUrl: string)

  /** `STATIC_MOU_DATA` (its creation timestamps are not modelled). */
  const StaticMouData: seq<Mou> := [
    Mou("1", Some("MOU-2026-001"), Some("CodeEra Technologies"), Some(SignedStatus), "/dummy/mou.pdf"),
    Mou("2", Some("MOU-2026-002"), Some("EventX Pvt Ltd"), Some(OtpSentStatus), "/dummy/mou.pdf")
  ]

  predicate HasRealRow(rows: seq<Mou>)
  {
    exists i :: 0 <= i < |rows| && Truthy(rows[i].mouNumber)
  }

  /** The rows are shown when at least one has an MOU number; otherwise the static rows are. */
  function TableData(rows: seq<Mou>): (shown: seq<Mou>)
    ensures HasRealRow(rows) ==> shown == rows
    ensures !HasRealRow(rows) ==> shown == StaticMouData
  {
    if HasRealRow(rows) then rows else StaticMouData
  }

  /** The table is never empty, and choosing again changes nothing. */
  lemma TableDataStable(rows: seq<Mou>)
    ensures |TableData(rows)| >= 1
    ensures HasRealRow(TableData(rows))
    ensures TableData(TableData(rows)) == TableData(rows)
  {
    assert Truthy(StaticMouData[0].mouNumber);
  }

  /** `r.mouNumber || '-'` */
  function MouNumberCell(r: Mou): (s: string)
    ensures Truthy(r.mouNumber) ==> s == r.mouNumber.value
    ensures !Truthy(r.mouNumber) ==> s == Dash
  {
    OrElse(r.mouNumber, Dash)
  }

  /** `r.organization?.name || '-'` */
  function OrganizationCell(r: Mou): (s: string)
    ensures Truthy(r.orgName) ==> s == r.orgName.value
    ensures !Truthy(r.orgName) ==> s == Dash
  {
    OrElse(r.orgName, Dash)
  }

  datatype ChipColor = Success | Warning | Default

  /** The status cell: a chip labelled with the status, or a dash without one. */
  datatype StatusCell = DashCell | Chip(text: string, color: ChipColor)

  function StatusCellOf(r: Mou): (c: StatusCell)
    ensures c.DashCell? <==> !Truthy(r.status)
    ensures c.Chip? ==> c.text == r.status.value
    ensures c.Chip? ==> (c.color == Success <==> r.status.value == SignedStatus)
    ensures c.Chip? ==> (c.color == Warning <==> r.status.value == OtpSentStatus)
  {
    if !Truthy(r.status) then DashCell
    else if r.status.value == SignedStatus then Chip(r.status.value, Success)
    else if r.status.value == OtpSentStatus then Chip(r.status.value, Warning)
    else Chip(r.status.value, Default)
  }

  /** The Sign button shows unless the MOU is signed; a missing status shows it too. */
  predicate ShowSign(r: Mou)
  {
    r.status != Some(SignedStatus)
  }

  /** A row offers Sign exactly when its chip is not the green one. */
  lemma SignIffNotSuccess(r: Mou)
    ensures ShowSign(r) <==> !(StatusCellOf(r).Chip? && StatusCellOf(r).color == Success)
  {
    assert |SignedStatus| > 0;
  }

  /** The static rows: the signed one offers no Sign, the one awaiting the OTP does. */
  lemma StaticRows()
    ensures !ShowSign(StaticMouData[0]) && StatusCellOf(StaticMouData[0]) == Chip(SignedStatus, Success)
    ensures ShowSign(StaticMouData[1]) && StatusCellOf(StaticMouData[1]) == Chip(OtpSentStatus, Warning)
  {
  }
}
