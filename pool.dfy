/** The settling-pond water-quality table: each parameter's reading gets a
    status badge, "Normal" (emerald) or "Perhatian" (amber). Only pH, TSS and
    dissolved oxygen have a rule; every other parameter is "Normal". */
module Pool {

  datatype StatusBadge = StatusBadge(status: string, color: string)

  const NormalStatus: string := "Normal"
  const AttentionStatus: string := "Perhatian"
  const EmeraldClass: string := "bg-emerald-50 text-emerald-700 border border-emerald-200"
  const AmberClass: string := "bg-amber-50 text-amber-700 border border-amber-200"

  /** The parameter names the table rates. */
  const TableParameters: seq<string> := ["temp", "humidity", "watertemp", "pH", "EC", "TDS", "TSS", "DO"]

  function Badge(normal: bool): StatusBadge {
    if normal then StatusBadge(NormalStatus, EmeraldClass) else StatusBadge(AttentionStatus, AmberClass)
  }

  /** `getStatus`: pH is normal in [6, 8], TSS below 600, dissolved oxygen from 4. */
  function GetStatus(param: string, value: real): (b: StatusBadge)
    ensures param == "pH" ==> (b.status == NormalStatus <==> 6.0 <= value <= 8.0)
    ensures param == "TSS" ==> (b.status == NormalStatus <==> value < 600.0)
    ensures param == "DO" ==> (b.status == NormalStatus <==> value >= 4.0)
    ensures param != "pH" && param != "TSS" && param != "DO" ==> b.status == NormalStatus
    ensures b.status == NormalStatus || b.status == AttentionStatus
    ensures b.color == if b.status == NormalStatus then EmeraldClass else AmberClass
  {
    if param == "pH" then Badge(6.0 <= value && value <= 8.0)
    else if param == "TSS" then Badge(value < 600.0)
    else if param == "DO" then Badge(value >= 4.0)
    else Badge(true)
  }

  /** Of the eight rows of the table, only pH, TSS and DO can ever show "Perhatian". */
  lemma OnlyThreeRowsCanWarn(i: nat, value: real)
    requires i < |TableParameters|
    requires GetStatus(TableParameters[i], value).status == AttentionStatus
    ensures TableParameters[i] in ["pH", "TSS", "DO"]
  {
  }
}
