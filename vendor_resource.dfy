/**
 * The record resource of the older generation: Create renders an "upsert"
 * PowerShell script from a text template (look the record up; if found, modify
 * it with Set-DnsServerResourceRecord, else add it with
 * Add-DnsServerResourceRecord), Read and Delete build their commands by
 * concatenation, and every command is run through the local `runpwsh` runner.
 * Only A and CNAME records are supported; there is no lock marker and no jump host.
 *
 * What the process printed arrives as a `Runpwsh.ProcessOutput`; the operations
 * report the script they hand to the runner (`None` when they stop before).
 */
module VendorResource {
  import opened Wrappers
  import opened GoStrings
  import opened Records
  import Runpwsh
  import VendorProvider

  /** The value the template is rendered against. */
  datatype DNSRecord = DNSRecord(
    Id: string,
    ZoneName: string,
    RecordType: string,
    RecordName: string,
    IPv4Address: string,
    HostnameAlias: string,
    DomainController: string)

  /** The resource's arguments as `d.Get` returns them (absent ones are ""). */
  datatype Declared = Declared(
    zoneName: string,
    recordName: string,
    recordType: string,
    ipv4address: string,
    hostnamealias: string)

  /**
   * The record Create builds: the arguments, the client's domain controller, and
   * as Id the identity of the record's own zone, name and type, which is the
   * string Read assigns to the same record.
   */
  function MakeRecord(decl: Declared, client: VendorProvider.DNSClient): (r: DNSRecord)
    ensures r.Id == Identity(r.ZoneName, r.RecordName, r.RecordType)
    ensures r.ZoneName == decl.zoneName && r.RecordName == decl.recordName && r.RecordType == decl.recordType
    ensures r.IPv4Address == decl.ipv4address && r.HostnameAlias == decl.hostnamealias
    ensures r.DomainController == client.domainController
  {
    DNSRecord(
      Id := Identity(decl.zoneName, decl.recordName, decl.recordType),
      ZoneName := decl.zoneName,
      RecordType := decl.recordType,
      RecordName := decl.recordName,
      IPv4Address := decl.ipv4address,
      HostnameAlias := decl.hostnamealias,
      DomainController := client.domainController)
  }

  // ---------------------------------------------------------------------------
  // The create template, as literal text and `{{.Field}}` holes

  datatype Field = ZoneName | RecordType | RecordName | IPv4Address | HostnameAlias | DomainController

  datatype Piece = Text(text: string) | Hole(field: Field)

  function Lookup(r: DNSRecord, f: Field): string
  {
    match f
    case ZoneName => r.ZoneName
    case RecordType => r.RecordType
    case RecordName => r.RecordName
    case IPv4Address => r.IPv4Address
    case HostnameAlias => r.HostnameAlias
    case DomainController => r.DomainController
  }

  /** Renders a template: literal text as is, each hole replaced by the field's value, unescaped. */
  function Render(t: seq<Piece>, r: DNSRecord): string
  {
    if t == [] then "" else RenderPiece(t[0], r) + Render(t[1..], r)
  }

  function RenderPiece(p: Piece, r: DNSRecord): string
  {
    match p
    case Text(s) => s
    case Hole(f) => Lookup(r, f)
  }

  /** Rendering a concatenation renders the parts one after the other. */
  lemma {:induction false} RenderAppend(a: seq<Piece>, b: seq<Piece>, r: DNSRecord)
    ensures Render(a + b, r) == Render(a, r) + Render(b, r)
    decreases |a|
  {
    if a == [] {
      assert a + b == b;
    } else {
      assert (a + b)[0] == a[0] && (a + b)[1..] == a[1..] + b;
      RenderAppend(a[1..], b, r);
    }
  }

  /** Substitution is verbatim: at a hole, the field's value appears in the output exactly as given. */
  lemma RenderHole(t: seq<Piece>, i: nat, r: DNSRecord)
    requires i < |t| && t[i].Hole?
    ensures Render(t, r) == Render(t[..i], r) + Lookup(r, t[i].field) + Render(t[i + 1..], r)
  {
    assert t == t[..i] + t[i..];
    RenderAppend(t[..i], t[i..], r);
    assert t[i..][1..] == t[i + 1..];
  }

  /** The rendering of the last part of a template occurs in the rendering of the whole. */
  lemma RenderLastContained(a: seq<Piece>, m: seq<Piece>, r: DNSRecord)
    ensures Contains(Render(a + m, r), Render(m, r))
  {
    RenderAppend(a, m, r);
    ContainsInfix(Render(a, r), Render(m, r), "");
    assert Render(a, r) + Render(m, r) + "" == Render(a, r) + Render(m, r);
  }

  /** What occurs in the rendering of a template still occurs once more pieces follow. */
  lemma RenderExtendRight(a: seq<Piece>, b: seq<Piece>, p: string, r: DNSRecord)
    requires Contains(Render(a, r), p)
    ensures Contains(Render(a + b, r), p)
  {
    RenderAppend(a, b, r);
    ContainsAppendRight(Render(a, r), Render(b, r), p);
  }

  /** What occurs in the rendering of a template still occurs once pieces precede it. */
  lemma RenderExtendLeft(a: seq<Piece>, b: seq<Piece>, p: string, r: DNSRecord)
    requires Contains(Render(b, r), p)
    ensures Contains(Render(a + b, r), p)
  {
    RenderAppend(a, b, r);
    ContainsAppendLeft(Render(a, r), Render(b, r), p);
  }

  lemma RenderPair(s: string, f: Field, r: DNSRecord)
    ensures Render([Text(s), Hole(f)], r) == s + Lookup(r, f)
  {
    var t := [Text(s), Hole(f)];
    assert t[1..] == [Hole(f)];
    assert [Hole(f)][1..] == [];
    assert Render([Hole(f)], r) == Lookup(r, f) + "";
    assert Lookup(r, f) + "" == Lookup(r, f);
    assert Render(t, r) == s + Render([Hole(f)], r);
  }

  lemma RenderSingle(s: string, r: DNSRecord)
    ensures Render([Text(s)], r) == s
  {
    assert [Text(s)][1..] == [];
    assert s + "" == s;
  }

  /** Rendering a literal followed by a template starts with that literal. */
  lemma RenderOpening(s: string, t: seq<Piece>, r: DNSRecord)
    ensures Render([Text(s)] + t, r) == s + Render(t, r)
    ensures HasPrefix(Render([Text(s)] + t, r), s)
  {
    RenderAppend([Text(s)], t, r);
    RenderSingle(s, r);
    PrefixOfAppend(s, Render(t, r));
  }

  /** `Get-DnsServerResourceRecord ... -ComputerName '<dc>'`: the lookup that opens the script. */
  const GetCall: seq<Piece> :=
    [Text("Get-DnsServerResourceRecord -ZoneName '"), Hole(ZoneName)] + [Text("' -RRType '"), Hole(RecordType)]
    + [Text("' -Name '"), Hole(RecordName)] + [Text("' -ComputerName '"), Hole(DomainController)] + [Text("'")]

  /** The A and CNAME cases of the modifying branch's switch on the record type. */
  const CaseSetA: seq<Piece> := [Text("'A'     { $newRecord.RecordData = '"), Hole(IPv4Address)] + [Text("' }")]
  const CaseSetCname: seq<Piece> := [Text("'CNAME' { $newRecord.RecordData = '"), Hole(HostnameAlias)] + [Text("' }")]

  const SetCall: seq<Piece> :=
    [Text("Set-DnsServerResourceRecord -ZoneName '"), Hole(ZoneName)]
    + [Text("' -OldObject $record -NewObject $newRecord -PassThru -ComputerName '"), Hole(DomainController)]
    + [Text("'")]

  /** The Add call up to its type-specific data argument. */
  const AddCall: seq<Piece> :=
    [Text("Add-DnsServerResourceRecord -ZoneName '"), Hole(ZoneName)] + [Text("' -RRType '"), Hole(RecordType)]
    + [Text("' -Name '"), Hole(RecordName)] + [Text("' -ComputerName '"), Hole(DomainController)]

  /** The A and CNAME cases of the adding branch's switch on the record type. */
  const CaseAddA: seq<Piece> :=
    [Text("'A'     { ")] + AddCall + [Text("' -IPv4Address '"), Hole(IPv4Address)] + [Text("' }")]
  const CaseAddCname: seq<Piece> :=
    [Text("'CNAME' { ")] + AddCall + [Text("' -HostNameAlias '"), Hole(HostnameAlias)] + [Text("' }")]

  /** Look the record up, keeping `$null` when it is not there. */
  const ProbeSection: seq<Piece> :=
    [Text("\ntry { \n    $newRecord = $record = ")] + GetCall
    + [Text(" -ErrorAction Stop \n} catch { $record = $null }; \n")]

  /** The head of the modifying branch's switch on the record type. */
  const FoundSwitch: seq<Piece> :=
    [Text("\n    Write-Host 'Existing Record Found, Modifying record.'\n    Switch ('"), Hole(RecordType)]
    + [Text("')\n    {\n        ")]

  /** The modifying branch after its switch: copy type and name, then replace the old record. */
  const FoundCopy: seq<Piece> :=
    [Text("\n    }\n    $newRecord.RecordType = '"), Hole(RecordType)]
    + [Text("'\n    $newRecord.HostName = '"), Hole(RecordName)] + [Text("'\n    ")]

  const FoundBody: seq<Piece> :=
    FoundSwitch + CaseSetA + [Text("\n        ")] + CaseSetCname + FoundCopy + SetCall + [Text("\n}\n")]

  /** The branch taken when the lookup found a record: modify a copy and replace the old one. */
  const FoundSection: seq<Piece> := [Text("if ($record) { ")] + FoundBody

  /** The head of the adding branch's switch on the record type. */
  const ElseSwitch: seq<Piece> :=
    [Text("\n    Write-Host 'Creating record.'\n    Switch ('"), Hole(RecordType)] + [Text("')\n    {\n        ")]

  const ElseBody: seq<Piece> :=
    ElseSwitch + CaseAddA + [Text("\n        ")] + CaseAddCname + [Text("\n    }\n}")]

  /** The branch taken otherwise: add the record. */
  const ElseSection: seq<Piece> := [Text("else {")] + ElseBody

  /** `createTemplate`, piece by piece. */
  const CreateTemplate: seq<Piece> := ProbeSection + FoundSection + ElseSection

  // ---------------------------------------------------------------------------
  // What the rendered upsert script says

  /** The script is the lookup, then the modifying branch, then the adding branch. */
  lemma UpsertScriptLayout(r: DNSRecord)
    ensures Render(CreateTemplate, r) == Render(ProbeSection, r) + Render(FoundSection, r) + Render(ElseSection, r)
    ensures HasPrefix(Render(FoundSection, r), "if ($record) { ")
    ensures HasPrefix(Render(ElseSection, r), "else {")
  {
    RenderAppend(ProbeSection + FoundSection, ElseSection, r);
    RenderAppend(ProbeSection, FoundSection, r);
    RenderOpening("if ($record) { ", FoundBody, r);
    RenderOpening("else {", ElseBody, r);
  }

  lemma RenderedGetCall(r: DNSRecord)
    ensures Render(GetCall, r) ==
      ("Get-DnsServerResourceRecord -ZoneName '" + r.ZoneName) + ("' -RRType '" + r.RecordType)
        + ("' -Name '" + r.RecordName) + ("' -ComputerName '" + r.DomainController) + "'"
  {
    var p1 := [Text("Get-DnsServerResourceRecord -ZoneName '"), Hole(ZoneName)];
    var p2 := [Text("' -RRType '"), Hole(RecordType)];
    var p3 := [Text("' -Name '"), Hole(RecordName)];
    var p4 := [Text("' -ComputerName '"), Hole(DomainController)];
    var p5 := [Text("'")];
    RenderAppend(p1 + p2 + p3 + p4, p5, r);
    RenderAppend(p1 + p2 + p3, p4, r);
    RenderAppend(p1 + p2, p3, r);
    RenderAppend(p1, p2, r);
    RenderPair(p1[0].text, ZoneName, r);
    RenderPair(p2[0].text, RecordType, r);
    RenderPair(p3[0].text, RecordName, r);
    RenderPair(p4[0].text, DomainController, r);
    RenderSingle(p5[0].text, r);
  }

  /** The lookup names the record's zone, type and name verbatim and targets the domain controller. */
  lemma ProbeSectionText(r: DNSRecord)
    ensures Contains(Render(ProbeSection, r),
      ("Get-DnsServerResourceRecord -ZoneName '" + r.ZoneName) + ("' -RRType '" + r.RecordType)
        + ("' -Name '" + r.RecordName) + ("' -ComputerName '" + r.DomainController) + "'")
  {
    var open := [Text("\ntry { \n    $newRecord = $record = ")];
    RenderLastContained(open, GetCall, r);
    RenderExtendRight(open + GetCall, [Text(" -ErrorAction Stop \n} catch { $record = $null }; \n")], Render(GetCall, r), r);
    RenderedGetCall(r);
  }

  lemma RenderedCaseSet(r: DNSRecord)
    ensures Render(CaseSetA, r) == ("'A'     { $newRecord.RecordData = '" + r.IPv4Address) + "' }"
    ensures Render(CaseSetCname, r) == ("'CNAME' { $newRecord.RecordData = '" + r.HostnameAlias) + "' }"
  {
    var a := [Text("'A'     { $newRecord.RecordData = '"), Hole(IPv4Address)];
    var c := [Text("'CNAME' { $newRecord.RecordData = '"), Hole(HostnameAlias)];
    var close := [Text("' }")];
    RenderAppend(a, close, r);
    RenderAppend(c, close, r);
    RenderPair(a[0].text, IPv4Address, r);
    RenderPair(c[0].text, HostnameAlias, r);
    RenderSingle(close[0].text, r);
  }

  lemma RenderedSetCall(r: DNSRecord)
    ensures Render(SetCall, r) ==
      ("Set-DnsServerResourceRecord -ZoneName '" + r.ZoneName)
        + ("' -OldObject $record -NewObject $newRecord -PassThru -ComputerName '" + r.DomainController) + "'"
  {
    var p1 := [Text("Set-DnsServerResourceRecord -ZoneName '"), Hole(ZoneName)];
    var p2 := [Text("' -OldObject $record -NewObject $newRecord -PassThru -ComputerName '"), Hole(DomainController)];
    var p3 := [Text("'")];
    assert SetCall == p1 + p2 + p3;
    RenderAppend(p1 + p2, p3, r);
    RenderAppend(p1, p2, r);
    RenderPair(p1[0].text, ZoneName, r);
    RenderPair(p2[0].text, DomainController, r);
    RenderSingle(p3[0].text, r);
  }

  /**
   * The modifying branch sets the copy's RecordData to the IPv4 address in its
   * 'A' case and to the alias in its 'CNAME' case, then replaces the record with
   * Set-DnsServerResourceRecord on the domain controller.
   */
  lemma FoundSectionText(r: DNSRecord)
    ensures Contains(Render(FoundSection, r), ("'A'     { $newRecord.RecordData = '" + r.IPv4Address) + "' }")
    ensures Contains(Render(FoundSection, r), ("'CNAME' { $newRecord.RecordData = '" + r.HostnameAlias) + "' }")
    ensures Contains(Render(FoundSection, r),
      ("Set-DnsServerResourceRecord -ZoneName '" + r.ZoneName)
        + ("' -OldObject $record -NewObject $newRecord -PassThru -ComputerName '" + r.DomainController) + "'")
    ensures Render(FoundSection, r) == "if ($record) { " + (Render(FoundSwitch, r) + Render(CaseSetA, r) + "\n        "
      + Render(CaseSetCname, r) + Render(FoundCopy, r) + Render(SetCall, r) + "\n}\n")
  {
    var between := [Text("\n        ")];
    var close := [Text("\n}\n")];
    RenderOpening("if ($record) { ", FoundBody, r);
    RenderAppend(FoundSwitch, CaseSetA, r);
    RenderAppend(FoundSwitch + CaseSetA, between, r);
    RenderAppend(FoundSwitch + CaseSetA + between, CaseSetCname, r);
    RenderAppend(FoundSwitch + CaseSetA + between + CaseSetCname, FoundCopy, r);
    RenderAppend(FoundSwitch + CaseSetA + between + CaseSetCname + FoundCopy, SetCall, r);
    RenderAppend(FoundSwitch + CaseSetA + between + CaseSetCname + FoundCopy + SetCall, close, r);
    RenderSingle("\n        ", r);
    RenderSingle("\n}\n", r);
    RenderedCaseSet(r);
    RenderedSetCall(r);
    var setA := Render(CaseSetA, r);
    RenderLastContained(FoundSwitch, CaseSetA, r);
    RenderExtendRight(FoundSwitch + CaseSetA, between, setA, r);
    RenderExtendRight(FoundSwitch + CaseSetA + between, CaseSetCname, setA, r);
    RenderExtendRight(FoundSwitch + CaseSetA + between + CaseSetCname, FoundCopy, setA, r);
    RenderExtendRight(FoundSwitch + CaseSetA + between + CaseSetCname + FoundCopy, SetCall, setA, r);
    RenderExtendRight(FoundSwitch + CaseSetA + between + CaseSetCname + FoundCopy + SetCall, close, setA, r);
    RenderExtendLeft([Text("if ($record) { ")], FoundBody, setA, r);
    var setCname := Render(CaseSetCname, r);
    RenderLastContained(FoundSwitch + CaseSetA + between, CaseSetCname, r);
    RenderExtendRight(FoundSwitch + CaseSetA + between + CaseSetCname, FoundCopy, setCname, r);
    RenderExtendRight(FoundSwitch + CaseSetA + between + CaseSetCname + FoundCopy, SetCall, setCname, r);
    RenderExtendRight(FoundSwitch + CaseSetA + between + CaseSetCname + FoundCopy + SetCall, close, setCname, r);
    RenderExtendLeft([Text("if ($record) { ")], FoundBody, setCname, r);
    var replace := Render(SetCall, r);
    RenderLastContained(FoundSwitch + CaseSetA + between + CaseSetCname + FoundCopy, SetCall, r);
    RenderExtendRight(FoundSwitch + CaseSetA + between + CaseSetCname + FoundCopy + SetCall, close, replace, r);
    RenderExtendLeft([Text("if ($record) { ")], FoundBody, replace, r);
  }

  lemma RenderedAddCall(r: DNSRecord)
    ensures Render(AddCall, r) ==
      ("Add-DnsServerResourceRecord -ZoneName '" + r.ZoneName) + ("' -RRType '" + r.RecordType)
        + ("' -Name '" + r.RecordName) + ("' -ComputerName '" + r.DomainController)
  {
    var p1 := [Text("Add-DnsServerResourceRecord -ZoneName '"), Hole(ZoneName)];
    var p2 := [Text("' -RRType '"), Hole(RecordType)];
    var p3 := [Text("' -Name '"), Hole(RecordName)];
    var p4 := [Text("' -ComputerName '"), Hole(DomainController)];
    RenderAppend(p1 + p2 + p3, p4, r);
    RenderAppend(p1 + p2, p3, r);
    RenderAppend(p1, p2, r);
    RenderPair(p1[0].text, ZoneName, r);
    RenderPair(p2[0].text, RecordType, r);
    RenderPair(p3[0].text, RecordName, r);
    RenderPair(p4[0].text, DomainController, r);
  }

  lemma RenderedCaseAddA(r: DNSRecord)
    ensures Render(CaseAddA, r) ==
      "'A'     { "
        + (("Add-DnsServerResourceRecord -ZoneName '" + r.ZoneName) + ("' -RRType '" + r.RecordType)
           + ("' -Name '" + r.RecordName) + ("' -ComputerName '" + r.DomainController))
        + ("' -IPv4Address '" + r.IPv4Address) + "' }"
  {
    var open := [Text("'A'     { ")];
    var data := [Text("' -IPv4Address '"), Hole(IPv4Address)];
    var close := [Text("' }")];
    RenderAppend(open + AddCall + data, close, r);
    RenderAppend(open + AddCall, data, r);
    RenderAppend(open, AddCall, r);
    RenderSingle(open[0].text, r);
    RenderedAddCall(r);
    RenderPair(data[0].text, IPv4Address, r);
    RenderSingle(close[0].text, r);
  }

  lemma RenderedCaseAddCname(r: DNSRecord)
    ensures Render(CaseAddCname, r) ==
      "'CNAME' { "
        + (("Add-DnsServerResourceRecord -ZoneName '" + r.ZoneName) + ("' -RRType '" + r.RecordType)
           + ("' -Name '" + r.RecordName) + ("' -ComputerName '" + r.DomainController))
        + ("' -HostNameAlias '" + r.HostnameAlias) + "' }"
  {
    var open := [Text("'CNAME' { ")];
    var data := [Text("' -HostNameAlias '"), Hole(HostnameAlias)];
    var close := [Text("' }")];
    RenderAppend(open + AddCall + data, close, r);
    RenderAppend(open + AddCall, data, r);
    RenderAppend(open, AddCall, r);
    RenderSingle(open[0].text, r);
    RenderedAddCall(r);
    RenderPair(data[0].text, HostnameAlias, r);
    RenderSingle(close[0].text, r);
  }

  /**
   * The adding branch calls Add-DnsServerResourceRecord on the domain controller
   * with -IPv4Address in its 'A' case and -HostNameAlias in its 'CNAME' case.
   */
  lemma ElseSectionText(r: DNSRecord)
    ensures Contains(Render(ElseSection, r),
      "'A'     { "
        + (("Add-DnsServerResourceRecord -ZoneName '" + r.ZoneName) + ("' -RRType '" + r.RecordType)
           + ("' -Name '" + r.RecordName) + ("' -ComputerName '" + r.DomainController))
        + ("' -IPv4Address '" + r.IPv4Address) + "' }")
    ensures Contains(Render(ElseSection, r),
      "'CNAME' { "
        + (("Add-DnsServerResourceRecord -ZoneName '" + r.ZoneName) + ("' -RRType '" + r.RecordType)
           + ("' -Name '" + r.RecordName) + ("' -ComputerName '" + r.DomainController))
        + ("' -HostNameAlias '" + r.HostnameAlias) + "' }")
    ensures Render(ElseSection, r) == "else {" + (Render(ElseSwitch, r) + Render(CaseAddA, r) + "\n        "
      + Render(CaseAddCname, r) + "\n    }\n}")
  {
    var between := [Text("\n        ")];
    var close := [Text("\n    }\n}")];
    RenderOpening("else {", ElseBody, r);
    RenderAppend(ElseSwitch, CaseAddA, r);
    RenderAppend(ElseSwitch + CaseAddA, between, r);
    RenderAppend(ElseSwitch + CaseAddA + between, CaseAddCname, r);
    RenderAppend(ElseSwitch + CaseAddA + between + CaseAddCname, close, r);
    RenderSingle("\n        ", r);
    RenderSingle("\n    }\n}", r);
    RenderedCaseAddA(r);
    RenderedCaseAddCname(r);
    var addA := Render(CaseAddA, r);
    RenderLastContained(ElseSwitch, CaseAddA, r);
    RenderExtendRight(ElseSwitch + CaseAddA, between, addA, r);
    RenderExtendRight(ElseSwitch + CaseAddA + between, CaseAddCname, addA, r);
    RenderExtendRight(ElseSwitch + CaseAddA + between + CaseAddCname, close, addA, r);
    RenderExtendLeft([Text("else {")], ElseBody, addA, r);
    var addCname := Render(CaseAddCname, r);
    RenderLastContained(ElseSwitch + CaseAddA + between, CaseAddCname, r);
    RenderExtendRight(ElseSwitch + CaseAddA + between + CaseAddCname, close, addCname, r);
    RenderExtendLeft([Text("else {")], ElseBody, addCname, r);
  }

  /** Whether a literal ends in "-ComputerName '", i.e. is followed by the target computer. */
  predicate EndsWithComputerName(p: Piece)
  {
    p.Text? && |p.text| >= 15 && p.text[|p.text| - 15..] == "-ComputerName '"
  }

  /** Every literal piece ending in "-ComputerName '" is followed by the DomainController hole. */
  ghost predicate ComputerNameIsController(t: seq<Piece>)
  {
    forall i :: 0 <= i < |t| && EndsWithComputerName(t[i]) ==> i + 1 < |t| && t[i + 1] == Hole(DomainController)
  }

  lemma PairTargets(s: string, f: Field)
    requires EndsWithComputerName(Text(s)) ==> f == DomainController
    ensures ComputerNameIsController([Text(s), Hole(f)])
  {
  }

  lemma SingleTargets(s: string)
    requires !EndsWithComputerName(Text(s))
    ensures ComputerNameIsController([Text(s)])
  {
  }

  lemma ComputerNameAppend(a: seq<Piece>, b: seq<Piece>)
    requires ComputerNameIsController(a) && ComputerNameIsController(b)
    ensures ComputerNameIsController(a + b)
  {
    forall i | 0 <= i < |a + b| && EndsWithComputerName((a + b)[i])
      ensures i + 1 < |a + b| && (a + b)[i + 1] == Hole(DomainController)
    {
      if i < |a| {
        assert (a + b)[i] == a[i];
        assert (a + b)[i + 1] == a[i + 1];
      } else {
        assert (a + b)[i] == b[i - |a|];
        assert (a + b)[i + 1] == b[i + 1 - |a|];
      }
    }
  }

  /**
   * Every literal piece of the upsert script that ends in "-ComputerName '" (those
   * of the lookup, the Set call and both Add calls) is followed by the client's
   * domain controller. Literals that mention "-ComputerName" elsewhere are not
   * covered; the template has none, but that is not proved here.
   */
  lemma CreateTemplateTargetsController()
    ensures ComputerNameIsController(CreateTemplate)
  {
    ProbeTargetsController();
    FoundTargetsController();
    ElseTargetsController();
    ComputerNameAppend(ProbeSection, FoundSection);
    ComputerNameAppend(ProbeSection + FoundSection, ElseSection);
  }

  lemma ProbeTargetsController()
    ensures ComputerNameIsController(ProbeSection)
  {
    var p1 := [Text("\ntry { \n    $newRecord = $record = ")];
    SingleTargets(p1[0].text);
    GetCallTargets();
    var p2 := [Text(" -ErrorAction Stop \n} catch { $record = $null }; \n")];
    SingleTargets(p2[0].text);
    ComputerNameAppend(p1, GetCall);
    ComputerNameAppend(p1 + GetCall, p2);
  }

  lemma FoundTargetsController()
    ensures ComputerNameIsController(FoundSection)
  {
    var p1 := [Text("if ($record) { ")];
    SingleTargets(p1[0].text);
    FoundBodyTargets();
    ComputerNameAppend(p1, FoundBody);
  }

  lemma ElseTargetsController()
    ensures ComputerNameIsController(ElseSection)
  {
    var p1 := [Text("else {")];
    SingleTargets(p1[0].text);
    ElseBodyTargets();
    ComputerNameAppend(p1, ElseBody);
  }

  lemma GetCallTargets()
    ensures ComputerNameIsController(GetCall)
  {
    var p1 := [Text("Get-DnsServerResourceRecord -ZoneName '"), Hole(ZoneName)];
    PairTargets(p1[0].text, ZoneName);
    var p2 := [Text("' -RRType '"), Hole(RecordType)];
    PairTargets(p2[0].text, RecordType);
    var p3 := [Text("' -Name '"), Hole(RecordName)];
    PairTargets(p3[0].text, RecordName);
    var p4 := [Text("' -ComputerName '"), Hole(DomainController)];
    PairTargets(p4[0].text, DomainController);
    var p5 := [Text("'")];
    SingleTargets(p5[0].text);
    ComputerNameAppend(p1, p2);
    ComputerNameAppend(p1 + p2, p3);
    ComputerNameAppend(p1 + p2 + p3, p4);
    ComputerNameAppend(p1 + p2 + p3 + p4, p5);
  }

  lemma CaseSetATargets()
    ensures ComputerNameIsController(CaseSetA)
  {
    var p1 := [Text("'A'     { $newRecord.RecordData = '"), Hole(IPv4Address)];
    PairTargets(p1[0].text, IPv4Address);
    var p2 := [Text("' }")];
    SingleTargets(p2[0].text);
    ComputerNameAppend(p1, p2);
  }

  lemma CaseSetCnameTargets()
    ensures ComputerNameIsController(CaseSetCname)
  {
    var p1 := [Text("'CNAME' { $newRecord.RecordData = '"), Hole(HostnameAlias)];
    PairTargets(p1[0].text, HostnameAlias);
    var p2 := [Text("' }")];
    SingleTargets(p2[0].text);
    ComputerNameAppend(p1, p2);
  }

  lemma SetCallTargets()
    ensures ComputerNameIsController(SetCall)
  {
    var p1 := [Text("Set-DnsServerResourceRecord -ZoneName '"), Hole(ZoneName)];
    PairTargets(p1[0].text, ZoneName);
    var p2 := [Text("' -OldObject $record -NewObject $newRecord -PassThru -ComputerName '"), Hole(DomainController)];
    PairTargets(p2[0].text, DomainController);
    var p3 := [Text("'")];
    SingleTargets(p3[0].text);
    ComputerNameAppend(p1, p2);
    ComputerNameAppend(p1 + p2, p3);
  }

  lemma AddCallTargets()
    ensures ComputerNameIsController(AddCall)
  {
    var p1 := [Text("Add-DnsServerResourceRecord -ZoneName '"), Hole(ZoneName)];
    PairTargets(p1[0].text, ZoneName);
    var p2 := [Text("' -RRType '"), Hole(RecordType)];
    PairTargets(p2[0].text, RecordType);
    var p3 := [Text("' -Name '"), Hole(RecordName)];
    PairTargets(p3[0].text, RecordName);
    var p4 := [Text("' -ComputerName '"), Hole(DomainController)];
    PairTargets(p4[0].text, DomainController);
    ComputerNameAppend(p1, p2);
    ComputerNameAppend(p1 + p2, p3);
    ComputerNameAppend(p1 + p2 + p3, p4);
  }

  lemma CaseAddATargets()
    ensures ComputerNameIsController(CaseAddA)
  {
    var p1 := [Text("'A'     { ")];
    SingleTargets(p1[0].text);
    AddCallTargets();
    var p2 := [Text("' -IPv4Address '"), Hole(IPv4Address)];
    PairTargets(p2[0].text, IPv4Address);
    var p3 := [Text("' }")];
    SingleTargets(p3[0].text);
    ComputerNameAppend(p1, AddCall);
    ComputerNameAppend(p1 + AddCall, p2);
    ComputerNameAppend(p1 + AddCall + p2, p3);
  }

  lemma CaseAddCnameTargets()
    ensures ComputerNameIsController(CaseAddCname)
  {
    var p1 := [Text("'CNAME' { ")];
    SingleTargets(p1[0].text);
    AddCallTargets();
    var p2 := [Text("' -HostNameAlias '"), Hole(HostnameAlias)];
    PairTargets(p2[0].text, HostnameAlias);
    var p3 := [Text("' }")];
    SingleTargets(p3[0].text);
    ComputerNameAppend(p1, AddCall);
    ComputerNameAppend(p1 + AddCall, p2);
    ComputerNameAppend(p1 + AddCall + p2, p3);
  }

  lemma FoundSwitchTargets()
    ensures ComputerNameIsController(FoundSwitch)
  {
    var p1 := [Text("\n    Write-Host 'Existing Record Found, Modifying record.'\n    Switch ('"), Hole(RecordType)];
    PairTargets(p1[0].text, RecordType);
    var p2 := [Text("')\n    {\n        ")];
    SingleTargets(p2[0].text);
    ComputerNameAppend(p1, p2);
  }

  lemma FoundCopyTargets()
    ensures ComputerNameIsController(FoundCopy)
  {
    var p1 := [Text("\n    }\n    $newRecord.RecordType = '"), Hole(RecordType)];
    PairTargets(p1[0].text, RecordType);
    var p2 := [Text("'\n    $newRecord.HostName = '"), Hole(RecordName)];
    PairTargets(p2[0].text, RecordName);
    var p3 := [Text("'\n    ")];
    SingleTargets(p3[0].text);
    ComputerNameAppend(p1, p2);
    ComputerNameAppend(p1 + p2, p3);
  }

  lemma FoundBodyTargets()
    ensures ComputerNameIsController(FoundBody)
  {
    FoundSwitchTargets();
    CaseSetATargets();
    var p1 := [Text("\n        ")];
    SingleTargets(p1[0].text);
    CaseSetCnameTargets();
    FoundCopyTargets();
    SetCallTargets();
    var p2 := [Text("\n}\n")];
    SingleTargets(p2[0].text);
    ComputerNameAppend(FoundSwitch, CaseSetA);
    ComputerNameAppend(FoundSwitch + CaseSetA, p1);
    ComputerNameAppend(FoundSwitch + CaseSetA + p1, CaseSetCname);
    ComputerNameAppend(FoundSwitch + CaseSetA + p1 + CaseSetCname, FoundCopy);
    ComputerNameAppend(FoundSwitch + CaseSetA + p1 + CaseSetCname + FoundCopy, SetCall);
    ComputerNameAppend(FoundSwitch + CaseSetA + p1 + CaseSetCname + FoundCopy + SetCall, p2);
  }

  lemma ElseSwitchTargets()
    ensures ComputerNameIsController(ElseSwitch)
  {
    var p1 := [Text("\n    Write-Host 'Creating record.'\n    Switch ('"), Hole(RecordType)];
    PairTargets(p1[0].text, RecordType);
    var p2 := [Text("')\n    {\n        ")];
    SingleTargets(p2[0].text);
    ComputerNameAppend(p1, p2);
  }

  lemma ElseBodyTargets()
    ensures ComputerNameIsController(ElseBody)
  {
    ElseSwitchTargets();
    CaseAddATargets();
    var p1 := [Text("\n        ")];
    SingleTargets(p1[0].text);
    CaseAddCnameTargets();
    var p2 := [Text("\n    }\n}")];
    SingleTargets(p2[0].text);
    ComputerNameAppend(ElseSwitch, CaseAddA);
    ComputerNameAppend(ElseSwitch + CaseAddA, p1);
    ComputerNameAppend(ElseSwitch + CaseAddA + p1, CaseAddCname);
    ComputerNameAppend(ElseSwitch + CaseAddA + p1 + CaseAddCname, p2);
  }

  // ---------------------------------------------------------------------------
  // Validation and the three operations

  const MissingIpv4: string := "Must provide ipv4address if record_type is 'A'"
  const MissingAlias: string := "Must provide hostnamealias if record_type is 'CNAME'"
  const UnknownType: string := "Unknown record type. This provider currently only supports 'A' and 'CNAME' records."

  /**
   * Create's switch on the record type: A needs an IPv4 address, CNAME an alias,
   * and every other type, PTR included, is refused.
   */
  function Validate(r: DNSRecord): (e: Option<string>)
    ensures e.None? <==> (r.RecordType == "A" && r.IPv4Address != "") || (r.RecordType == "CNAME" && r.HostnameAlias != "")
    ensures r.RecordType == "A" && r.IPv4Address == "" ==> e == Some(MissingIpv4)
    ensures r.RecordType == "CNAME" && r.HostnameAlias == "" ==> e == Some(MissingAlias)
    ensures r.RecordType != "A" && r.RecordType != "CNAME" ==> e == Some(UnknownType)
  {
    if r.RecordType == "A" then
      if r.IPv4Address == "" then Some(MissingIpv4) else None
    else if r.RecordType == "CNAME" then
      if r.HostnameAlias == "" then Some(MissingAlias) else None
    else
      Some(UnknownType)
  }

  /** Terraform's resource data: the declared arguments and the tracked identity ("" when none). */
  class ResourceData {
    const declared: Declared
    var id: string

    constructor (declared: Declared, id: string)
      ensures this.declared == declared && this.id == id
    {
      this.declared := declared;
      this.id := id;
    }
  }

  /**
   * `resourceWinDNSRecordCreate`. Builds the record and renders the upsert
   * script, then validates; only a valid record's script is run, and only a run
   * with nothing on stderr sets the identity.
   */
  method Create(d: ResourceData, client: VendorProvider.DNSClient, proc: Runpwsh.ProcessOutput)
    returns (err: Option<string>, sent: Option<string>)
    modifies d
    ensures sent.Some? <==> Validate(MakeRecord(d.declared, client)).None?
    ensures sent.None? ==> err == Validate(MakeRecord(d.declared, client))
    ensures sent.Some? ==> sent.value == Render(CreateTemplate, MakeRecord(d.declared, client))
    ensures sent.Some? ==> err == (if proc.stderr == "" then None else Some(proc.stderr))
    ensures d.id == if err.None? then Identity(d.declared.zoneName, d.declared.recordName, d.declared.recordType) else old(d.id)
  {
    var record := MakeRecord(d.declared, client);
    var script := Render(CreateTemplate, record);
    var invalid := Validate(record);
    if invalid.Some? {
      return invalid, None;
    }
    sent := Some(script);
    var result := Runpwsh.RunCommand(proc);
    if result.err.Some? {
      return result.err, sent;
    }
    d.id := record.Id;
    err := None;
  }

  /**
   * `resourceWinDNSRecordRead`. Sends the probe to the domain controller; no
   * error sets the identity, an ObjectNotFound error clears it and counts as
   * success, any other error is returned with the identity untouched.
   */
  method Read(d: ResourceData, client: VendorProvider.DNSClient, proc: Runpwsh.ProcessOutput)
    returns (err: Option<string>, sent: string)
    modifies d
    ensures sent ==
      "try { $record = Get-DnsServerResourceRecord -ZoneName " + d.declared.zoneName + " -RRType " + d.declared.recordType
        + " -Name " + d.declared.recordName + " -ComputerName " + client.domainController
        + " -ErrorAction Stop } catch { $record = '''' }; if ($record) { write-host 'RECORD_FOUND' }"
    ensures proc.stderr == "" ==> err.None? && d.id == Identity(d.declared.zoneName, d.declared.recordName, d.declared.recordType)
    ensures proc.stderr != "" && Contains(proc.stderr, NotFoundMarker) ==> err.None? && d.id == ""
    ensures proc.stderr != "" && !Contains(proc.stderr, NotFoundMarker) ==> err == Some(proc.stderr) && d.id == old(d.id)
  {
    var rec := d.declared;
    sent := "try { $record = Get-DnsServerResourceRecord -ZoneName " + rec.zoneName + " -RRType " + rec.recordType
      + " -Name " + rec.recordName + " -ComputerName " + client.domainController
      + " -ErrorAction Stop } catch { $record = '''' }; if ($record) { write-host 'RECORD_FOUND' }";
    var result := Runpwsh.RunCommand(proc);
    match InterpretRead(result.err)
    case Failed(message) =>
      err := Some(message);
    case Absent =>
      d.id := "";
      err := None;
    case Present =>
      d.id := Identity(rec.zoneName, rec.recordName, rec.recordType);
      err := None;
  }

  /**
   * `resourceWinDNSRecordDelete`. Sends the removal to the domain controller;
   * success clears the identity, an error is returned with the identity left.
   */
  method Delete(d: ResourceData, client: VendorProvider.DNSClient, proc: Runpwsh.ProcessOutput)
    returns (err: Option<string>, sent: string)
    modifies d
    ensures sent ==
      "Remove-DNSServerResourceRecord -ZoneName " + d.declared.zoneName + " -RRType " + d.declared.recordType
        + " -Name " + d.declared.recordName + " -ComputerName " + client.domainController + " -Confirm:$false -Force"
    ensures err.Some? <==> proc.stderr != ""
    ensures err.Some? ==> err.value == proc.stderr
    ensures d.id == if err.None? then "" else old(d.id)
  {
    var rec := d.declared;
    sent := "Remove-DNSServerResourceRecord -ZoneName " + rec.zoneName + " -RRType " + rec.recordType
      + " -Name " + rec.recordName + " -ComputerName " + client.domainController + " -Confirm:$false -Force";
    var result := Runpwsh.RunCommand(proc);
    if result.err.Some? {
      return result.err, sent;
    }
    d.id := "";
    err := None;
  }
}
