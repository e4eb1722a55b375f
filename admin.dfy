/** The admin forwarding number (controllers/adminController.js): a single
    record holding a number and an ON/OFF switch, where switching OFF also
    sets the number to "Inactive". */
module AdminNumber {
  import opened Common

  /** The `["ON", "OFF"]` enum of the admin record's `status`. */
  datatype Switch = On | Off

  datatype AdminRecord = AdminRecord(number: string, status: Switch)

  const INACTIVE: string := "Inactive"

  /** What a read answers with when no record exists. */
  const DEFAULT_ADMIN: AdminRecord := AdminRecord(INACTIVE, Off)

  /** A request that passed the checks: the number to store, and the status
      when one was sent. */
  datatype AdminChange = AdminChange(number: string, status: Option<Switch>)

  function ParseSwitch(s: string): (r: Option<Switch>)
    ensures r == Some(On) <==> s == "ON"
    ensures r == Some(Off) <==> s == "OFF"
  {
    if s == "ON" then Some(On) else if s == "OFF" then Some(Off) else None
  }

  /** The checks of `setAdminNumber`: status "OFF" replaces the number by
      "Inactive"; then the number must be non-empty and a status, when sent,
      must be "ON" or "OFF". */
  function CheckChange(number: Option<string>, status: Option<string>): (r: Result<AdminChange>)
    ensures status == Some("OFF") ==> r == Accept(AdminChange(INACTIVE, Some(Off)))
    ensures status != Some("OFF") && !Given(number) ==> r == Refuse(BAD_REQUEST)
    ensures Given(status) && ParseSwitch(status.value).None? ==> r == Refuse(BAD_REQUEST)
    ensures r.Accept? <==>
      status == Some("OFF") || (Given(number) && (!Given(status) || ParseSwitch(status.value).Some?))
    ensures r.Accept? && status != Some("OFF") ==>
      && r.value.number == number.value
      && r.value.status == (if Given(status) then ParseSwitch(status.value) else None)
    ensures r.Refuse? ==> r.status == BAD_REQUEST
  {
    var n := if status == Some("OFF") then Some(INACTIVE) else number;
    if !Given(n) then Refuse(BAD_REQUEST)
    else if !Given(status) then Accept(AdminChange(n.value, None))
    else
      match ParseSwitch(status.value)
      case None => Refuse(BAD_REQUEST)
      case Some(s) => Accept(AdminChange(n.value, Some(s)))
  }

  /** The record after an accepted change: the existing one takes the new
      number and keeps its status unless one was sent; a new one is OFF
      unless a status was sent. */
  function Applied(prev: Option<AdminRecord>, c: AdminChange): (r: AdminRecord)
    ensures r.number == c.number
    ensures c.status.Some? ==> r.status == c.status.value
    ensures c.status.None? && prev.Some? ==> r.status == prev.value.status
    ensures c.status.None? && prev.None? ==> r.status == Off
  {
    var status := if c.status.Some? then c.status.value else if prev.Some? then prev.value.status else Off;
    AdminRecord(c.number, status)
  }

  /** Whatever was stored before, switching OFF always reads back as the
      inactive default. */
  lemma OffReadsAsDefault(prev: Option<AdminRecord>, number: Option<string>)
    ensures CheckChange(number, Some("OFF")).Accept?
    ensures Applied(prev, CheckChange(number, Some("OFF")).value) == DEFAULT_ADMIN
  {
  }

  /** Setting a number without a status never turns a stored switch on or off. */
  lemma NumberOnlyKeepsSwitch(stored: AdminRecord, number: string)
    requires number != ""
    ensures CheckChange(Some(number), None).Accept?
    ensures Applied(Some(stored), CheckChange(Some(number), None).value) == stored.(number := number)
  {
  }

  /** The admin number collection: at most one record. */
  class AdminStore {
    var record: Option<AdminRecord>

    constructor()
      ensures record == None
    {
      record := None;
    }

    /** `getAdminNumber`: the stored number and status, or the default. */
    function GetAdminNumber(): (r: Reply<AdminRecord>)
      reads this
      ensures r.Ok? && r.code == OK
      ensures record.None? ==> r.data == DEFAULT_ADMIN
      ensures record.Some? ==> r.data == record.value
    {
      Ok(OK, if record.Some? then record.value else DEFAULT_ADMIN)
    }

    /** `setAdminNumber`: a refused change writes nothing; an accepted one
        updates the single record or creates it. */
    method SetAdminNumber(number: Option<string>, status: Option<string>) returns (reply: Reply<AdminRecord>)
      modifies this
      ensures CheckChange(number, status).Refuse? ==> reply == Err(BAD_REQUEST) && record == old(record)
      ensures CheckChange(number, status).Accept? ==>
        var r := Applied(old(record), CheckChange(number, status).value);
        record == Some(r) && reply == Ok(OK, r)
    {
      var checked := CheckChange(number, status);
      if checked.Refuse? {
        return Err(checked.status);
      }
      var c := checked.value;
      var r;
      match record {
        case Some(existing) =>
          r := existing.(number := c.number);
          if c.status.Some? {
            r := r.(status := c.status.value);
          }
        case None =>
          r := AdminRecord(c.number, if c.status.Some? then c.status.value else Off);
      }
      record := Some(r);
      reply := Ok(OK, r);
    }
  }
}
