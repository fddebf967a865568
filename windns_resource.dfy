/**
 * The record resource of the current generation: Create, Read and Delete of an
 * A, CNAME or PTR record through PowerShell commands built by concatenation,
 * with Create and Delete bracketed by a lock-marker file shared by every
 * operation of one provider session.
 *
 * The remote call (goPSRemoting over WinRM or SSH) is not modelled: its
 * `(output, error)` answer arrives as a `CallResult` parameter, and the
 * operations report the command they would have sent (`None` when they stop
 * before sending one). The file system is reduced to the `LockMarker` object.
 */
module WinDNSResource {
  import opened Wrappers
  import opened GoStrings
  import opened Records
  import opened WinDNSProvider

  /** The resource's arguments as `d.Get` returns them (absent ones are ""). */
  datatype Declared = Declared(
    zoneName: string,
    recordName: string,
    recordType: string,
    ipv4address: string,
    hostnamealias: string,
    ptrdomainname: string)

  const MissingIpv4: string := "Must provide ipv4address if record_type is 'A'"
  const MissingAlias: string := "Must provide hostnamealias if record_type is 'CNAME'"
  const MissingPtr: string := "Must provide ptrdomainname if record_type is 'PTR'"
  const UnknownType: string := "Unknown record type. This provider currently only supports 'A', 'CNAME', and 'PTR' records."

  /** Jump-host routing: with usejumphost "1" every command names the zone as its target computer. */
  function ServerName(usejumphost: string, zone: string): string
  {
    if usejumphost == "1" then " -ComputerName " + zone else ""
  }

  /**
   * The `Add-DNSServerResourceRecord` command Create sends, or the validation
   * error that stops Create before anything is sent.
   */
  function CreateCommand(rec: Declared, usejumphost: string): (r: Result<string>)
    ensures rec.recordType == "A" ==> (r.Success? <==> rec.ipv4address != "")
    ensures rec.recordType == "CNAME" ==> (r.Success? <==> rec.hostnamealias != "")
    ensures rec.recordType == "PTR" ==> (r.Success? <==> rec.ptrdomainname != "")
    ensures rec.recordType != "A" && rec.recordType != "CNAME" && rec.recordType != "PTR" ==> r == Failure(UnknownType)
    ensures r.Failure? ==> r.error == ValidationError(rec.recordType)
    ensures r.Success? ==> r.value == AddCommand(rec) + DataArgument(rec) + ServerName(usejumphost, rec.zoneName)
  {
    var server := ServerName(usejumphost, rec.zoneName);
    if rec.recordType == "A" then
      if rec.ipv4address == "" then Failure(MissingIpv4) else Success(AddCommand(rec) + (" -IPv4Address " + rec.ipv4address) + server)
    else if rec.recordType == "CNAME" then
      if rec.hostnamealias == "" then Failure(MissingAlias) else Success(AddCommand(rec) + (" -HostNameAlias " + rec.hostnamealias) + server)
    else if rec.recordType == "PTR" then
      if rec.ptrdomainname == "" then Failure(MissingPtr) else Success(AddCommand(rec) + (" -PtrDomainName " + rec.ptrdomainname) + server)
    else
      Failure(UnknownType)
  }

  /** The part of the Add command common to all types: zone, "-" followed by the type, name. */
  function AddCommand(rec: Declared): string
  {
    "Add-DNSServerResourceRecord -ZoneName " + rec.zoneName + " -" + rec.recordType + " -Name " + rec.recordName
  }

  /** The type-specific data argument of the Add command ("" for a type Create refuses). */
  function DataArgument(rec: Declared): string
  {
    if rec.recordType == "A" then " -IPv4Address " + rec.ipv4address
    else if rec.recordType == "CNAME" then " -HostNameAlias " + rec.hostnamealias
    else if rec.recordType == "PTR" then " -PtrDomainName " + rec.ptrdomainname
    else ""
  }

  /** The message of the validation error for a record type. */
  function ValidationError(recordType: string): string
  {
    if recordType == "A" then MissingIpv4
    else if recordType == "CNAME" then MissingAlias
    else if recordType == "PTR" then MissingPtr
    else UnknownType
  }

  /**
   * The type reaches the Add command as a switch of its own name: "-A",
   * "-CNAME" or "-PTR" right after the zone.
   */
  lemma AddCommandSwitch(rec: Declared)
    requires rec.recordType in {"A", "CNAME", "PTR"}
    ensures rec.recordType == "A" ==>
              AddCommand(rec) == "Add-DNSServerResourceRecord -ZoneName " + rec.zoneName + " -A -Name " + rec.recordName
    ensures rec.recordType == "CNAME" ==>
              AddCommand(rec) == "Add-DNSServerResourceRecord -ZoneName " + rec.zoneName + " -CNAME -Name " + rec.recordName
    ensures rec.recordType == "PTR" ==>
              AddCommand(rec) == "Add-DNSServerResourceRecord -ZoneName " + rec.zoneName + " -PTR -Name " + rec.recordName
  {
    var head := "Add-DNSServerResourceRecord -ZoneName " + rec.zoneName;
    assert AddCommand(rec) == head + (" -" + rec.recordType + " -Name ") + rec.recordName;
  }

  /**
   * Jump-host mode changes nothing but the tail: validation is the same, and the
   * command is the direct one followed by " -ComputerName " and the zone. Every
   * value other than "1" means "no jump host".
   */
  lemma JumpHostOnlyAppendsTarget(rec: Declared, other: string)
    requires other != "1"
    ensures CreateCommand(rec, "1").Success? <==> CreateCommand(rec, other).Success?
    ensures CreateCommand(rec, other) == CreateCommand(rec, "0")
    ensures CreateCommand(rec, "1").Success? ==>
      CreateCommand(rec, "1").value == CreateCommand(rec, other).value + " -ComputerName " + rec.zoneName
  {
  }

  /** The text that closes Read's probe: RECORD_FOUND is written only when the lookup returned a record. */
  const ProbeTail: string := " catch { $record = '''' }; if ($record) { write-host 'RECORD_FOUND' }"

  /**
   * The probe Read sends: the lookup by zone, type and name, routed through the
   * jump host when there is one, inside a `try` whose `catch` empties `$record`
   * instead of failing, and closed by the RECORD_FOUND report.
   */
  function ReadCommand(rec: Declared, usejumphost: string): (c: string)
    ensures HasPrefix(c, "try { $record = ")
    ensures Contains(c, "Get-DnsServerResourceRecord -ZoneName " + rec.zoneName + " -RRType " + rec.recordType
                        + " -Name " + rec.recordName + ServerName(usejumphost, rec.zoneName) + " -ErrorAction Stop }")
    ensures |c| >= |ProbeTail| && c[|c| - |ProbeTail|..] == ProbeTail
  {
    var lookup := "Get-DnsServerResourceRecord -ZoneName " + rec.zoneName + " -RRType " + rec.recordType
      + " -Name " + rec.recordName + ServerName(usejumphost, rec.zoneName) + " -ErrorAction Stop }";
    var c := "try { $record = " + lookup + ProbeTail;
    ContainsInfix("try { $record = ", lookup, ProbeTail);
    PrefixOfAppend("try { $record = ", lookup + ProbeTail);
    assert c == "try { $record = " + (lookup + ProbeTail);
    assert c == ("try { $record = " + lookup) + ProbeTail;
    c
  }

  /**
   * The command Delete sends. Through a jump host it is a pipeline that looks the
   * record up and pipes it into the removal; otherwise it is a direct removal by
   * zone, type and name.
   */
  function DeleteCommand(rec: Declared, usejumphost: string): (c: string)
    ensures HasPrefix(c, "Get-DnsServerResourceRecord ") <==> usejumphost == "1"
    ensures usejumphost == "1" ==>
              c == "Get-DnsServerResourceRecord " + ("-ZoneName " + rec.zoneName + " -RRType " + rec.recordType
                   + " -Name " + rec.recordName + (" -ComputerName " + rec.zoneName)
                   + " | " + "Remove-DNSServerResourceRecord -ZoneName " + rec.zoneName
                   + " -Confirm:$false -Force" + (" -ComputerName " + rec.zoneName))
    ensures usejumphost != "1" ==>
              c == "Remove-DNSServerResourceRecord -ZoneName " + rec.zoneName + " -RRType " + rec.recordType
                   + " -Name " + rec.recordName + " -Confirm:$false -Force"
  {
    var server := ServerName(usejumphost, rec.zoneName);
    var direct := "Remove-DNSServerResourceRecord -ZoneName " + rec.zoneName + " -RRType " + rec.recordType
      + " -Name " + rec.recordName + " -Confirm:$false -Force" + server;
    if usejumphost == "1" then
      var arguments := "-ZoneName " + rec.zoneName + " -RRType " + rec.recordType + " -Name " + rec.recordName + server
        + " | " + "Remove-DNSServerResourceRecord -ZoneName " + rec.zoneName + " -Confirm:$false -Force" + server;
      var pipeline := "Get-DnsServerResourceRecord " + arguments;
      PrefixOfAppend("Get-DnsServerResourceRecord ", arguments);
      pipeline
    else
      assert direct == "Remove-DNSServerResourceRecord -ZoneName " + (rec.zoneName + " -RRType " + rec.recordType
        + " -Name " + rec.recordName + " -Confirm:$false -Force" + server);
      assert direct[0] == 'R';
      FirstCharDiffers(direct, "Get-DnsServerResourceRecord ");
      direct
  }


  /**
   * `waitForLock`: `polls` are the successive answers of the file-existence check
   * (true: the marker is there). The method returns true once it has seen the
   * marker absent, and `seen` is the first poll that did; every earlier poll saw
   * it present. The source polls forever when the marker never disappears, hence
   * the requirement that some poll sees it gone. Create and Delete also require
   * the first poll to agree with the marker as it is when they start; a later
   * answer can differ only because another operation of the session removed it
   * in the meantime.
   */
  method WaitForLock(polls: seq<bool>) returns (acquired: bool, seen: nat)
    requires exists i :: 0 <= i < |polls| && !polls[i]
    ensures acquired
    ensures seen < |polls| && !polls[seen]
    ensures forall j :: 0 <= j < seen ==> polls[j]
  {
    ghost var free :| 0 <= free < |polls| && !polls[free];
    seen := 0;
    var locked := polls[0];
    while locked
      invariant seen <= free && locked == polls[seen]
      invariant forall j :: 0 <= j < seen ==> polls[j]
      decreases free - seen
    {
      seen := seen + 1;
      locked := polls[seen];
    }
    acquired := true;
  }

  /** The lock-marker file at the session's lock-file path; `present` is whether it exists. */
  class LockMarker {
    const path: string
    var present: bool

    constructor (path: string, present: bool)
      ensures this.path == path && this.present == present
    {
      this.path := path;
      this.present := present;
    }
  }

  /** Terraform's resource data: the declared arguments and the tracked identity ("" when none). */
  class ResourceData {
    const declared: Declared
    var id: string

    constructor (declared: Declared, id: string)
      ensures this.declared == declared && this.id == id
    {
      this.declared := declared;
      this.id := id;
    }
  }

  /**
   * `resourceWinDNSRecordCreate`. Waits for the marker, creates it, validates,
   * sends the Add command, and only when that succeeds sets the identity and
   * removes the marker. A failure to create the marker (`markerError`) ends the
   * call at once; every later error return leaves the marker in place.
   */
  method Create(d: ResourceData, client: DNSClient, marker: LockMarker,
                polls: seq<bool>, markerError: Option<string>, remote: CallResult)
    returns (err: Option<string>, sent: Option<string>)
    requires marker.path == client.lockfile
    requires exists i :: 0 <= i < |polls| && !polls[i]
    requires polls[0] == marker.present
    modifies d, marker
    ensures sent.Some? <==> markerError.None? && CreateCommand(d.declared, client.usejumphost).Success?
    ensures sent.Some? ==> sent.value == CreateCommand(d.declared, client.usejumphost).value
    ensures markerError.Some? ==> err == markerError
    ensures markerError.None? && CreateCommand(d.declared, client.usejumphost).Failure? ==>
      err == Some(CreateCommand(d.declared, client.usejumphost).error)
    ensures sent.Some? ==> err == remote.err
    ensures d.id == if err.None? then Identity(d.declared.zoneName, d.declared.recordName, d.declared.recordType) else old(d.id)
    ensures marker.present <==> markerError.None? && err.Some?
  {
    var rec := d.declared;
    var id := Identity(rec.zoneName, rec.recordName, rec.recordType);
    var acquired, seen := WaitForLock(polls);
    // The last poll found no marker file.
    marker.present := polls[seen];
    if markerError.Some? {
      return markerError, None;
    }
    marker.present := true;
    var command := CreateCommand(rec, client.usejumphost);
    if command.Failure? {
      return Some(command.error), None;
    }
    sent := Some(command.value);
    if remote.err.Some? {
      return remote.err, sent;
    }
    d.id := id;
    marker.present := false;
    err := None;
  }

  /**
   * `resourceWinDNSRecordRead`. Sends the probe without taking the lock; no error
   * sets the identity, an ObjectNotFound error clears it and counts as success,
   * and any other error is returned with the identity untouched.
   */
  method Read(d: ResourceData, client: DNSClient, remote: CallResult)
    returns (err: Option<string>, sent: string)
    modifies d
    ensures sent == ReadCommand(d.declared, client.usejumphost)
    ensures remote.err.None? ==> err.None? && d.id == Identity(d.declared.zoneName, d.declared.recordName, d.declared.recordType)
    ensures remote.err.Some? && Contains(remote.err.value, NotFoundMarker) ==> err.None? && d.id == ""
    ensures remote.err.Some? && !Contains(remote.err.value, NotFoundMarker) ==> err == remote.err && d.id == old(d.id)
  {
    var rec := d.declared;
    sent := ReadCommand(rec, client.usejumphost);
    match InterpretRead(remote.err)
    case Failed(message) =>
      err := Some(message);
    case Absent =>
      d.id := "";
      err := None;
    case Present =>
      d.id := Identity(rec.zoneName, rec.recordName, rec.recordType);
      err := None;
  }

  /**
   * `resourceWinDNSRecordDelete`. Waits for and creates the marker, sends the
   * removal, and only on success clears the identity and removes the marker; an
   * error from the remote call is returned with identity and marker left as they are.
   */
  method Delete(d: ResourceData, client: DNSClient, marker: LockMarker,
                polls: seq<bool>, markerError: Option<string>, remote: CallResult)
    returns (err: Option<string>, sent: Option<string>)
    requires marker.path == client.lockfile
    requires exists i :: 0 <= i < |polls| && !polls[i]
    requires polls[0] == marker.present
    modifies d, marker
    ensures markerError.Some? ==> err == markerError && sent.None?
    ensures markerError.None? ==> sent == Some(DeleteCommand(d.declared, client.usejumphost)) && err == remote.err
    ensures d.id == if err.None? then "" else old(d.id)
    ensures marker.present <==> markerError.None? && err.Some?
  {
    var acquired, seen := WaitForLock(polls);
    // The last poll found no marker file.
    marker.present := polls[seen];
    if markerError.Some? {
      return markerError, None;
    }
    marker.present := true;
    var command := DeleteCommand(d.declared, client.usejumphost);
    sent := Some(command);
    if remote.err.Some? {
      return remote.err, sent;
    }
    d.id := "";
    marker.present := false;
    err := None;
  }

  // ---------------------------------------------------------------------------
  // Two runs, as a caller sees them

  /**
   * An A record without an address is refused after the marker was created, so
   * the marker stays behind; a Read in between neither needs nor touches it.
   */
  method RejectedCreateLeavesMarker(client: DNSClient)
  {
    var marker := new LockMarker(client.lockfile, false);
    var d := new ResourceData(Declared("corp.local", "svc1", "A", "", "", ""), "");
    var polls := [false];
    assert !polls[0];
    var err, sent := Create(d, client, marker, polls, None, CallResult("", None));
    assert err == Some(MissingIpv4) && sent == None;
    assert marker.present && d.id == "";
    var readErr, probe := Read(d, client, CallResult("", Some("ObjectNotFound: svc1")));
    NotFoundAnywhere("", ": svc1");
    assert readErr == None && d.id == "";
    assert marker.present;
  }

  /** A successful Create and Delete through the jump host: identity set, then cleared, marker released each time. */
  method CreateThenDeleteThroughJumpHost(client: DNSClient)
    requires client.usejumphost == "1"
  {
    var marker := new LockMarker(client.lockfile, false);
    var rec := Declared("corp.local", "svc1", "A", "10.0.0.5", "", "");
    var d := new ResourceData(rec, "");
    var polls := [false];
    assert !polls[0];
    var err, sent := Create(d, client, marker, polls, None, CallResult("", None));
    JumpHostOnlyAppendsTarget(rec, "0");
    assert sent == Some(CreateCommand(rec, "0").value + " -ComputerName " + "corp.local");
    assert err == None && d.id == "corp.local_svc1_A" && !marker.present;
    err, sent := Delete(d, client, marker, polls, None, CallResult("", None));
    assert sent.Some? && HasPrefix(sent.value, "Get-DnsServerResourceRecord ");
    assert err == None && d.id == "" && !marker.present;
  }
}
