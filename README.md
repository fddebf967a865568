# windns record reconciler, modelled in Dafny

The Terraform provider `windns` manages DNS records on a Windows DNS server by
sending PowerShell commands. It keeps one identity string per record. The
repository holds two generations of the resource logic, and both are modelled:

- **Current generation** (`windns/`). `providerConfigure` checks username,
  password and server and builds a `DNSClient` holding a lock-file path.
  - Create sends a plain `Add-DNSServerResourceRecord` for A, CNAME or PTR
    records.
  - Read probes the record with `Get-DnsServerResourceRecord`.
  - Delete sends `Remove-DNSServerResourceRecord`. In jump-host mode it sends a
    `Get … | Remove …` pipeline instead.
  - Every command is built by string concatenation. In jump-host mode it gets
    ` -ComputerName <zone>` appended.
  - Create and Delete first wait until the lock-marker file is absent, then
    create it, and remove it only on their success path.
- **Older generation** (`vendor/windns/`, with `vendor/runpwsh/`).
  `providerConfigure` requires a domain controller.
  - Create renders an "upsert" script from a text template: look the record
    up, then modify it with `Set-DnsServerResourceRecord` or add it with
    `Add-DnsServerResourceRecord`.
  - Read and Delete build their commands by concatenation and address the
    domain controller.
  - Every script runs through the local `runpwsh` runner. It turns stderr into
    the error and trims trailing CR/LF from stdout.

Modules, one per concern:

| module | file | models |
|---|---|---|
| `Wrappers` | `wrappers.dfy` | `Option`, `Result` |
| `GoStrings` | `go_strings.dfy` | `strings.Contains`, `strings.TrimRight` |
| `Records` | `records.dfy` | the identity string, the runner's `(output, error)` pair, how Read interprets the error |
| `Runpwsh` | `runpwsh.dfy` | `runCommand`'s post-processing, the interpreter choice |
| `WinDNSProvider` | `windns_provider.dfy` | `providerConfigure` of the current generation |
| `WinDNSResource` | `windns_resource.dfy` | commands, `waitForLock`, Create/Read/Delete of the current generation |
| `VendorProvider` | `vendor_provider.dfy` | `providerConfigure` of the older generation |
| `VendorResource` | `vendor_resource.dfy` | `DNSRecord`, the upsert template and its rendering, Create/Read/Delete of the older generation |

How the parts are represented:

- Pure code (command strings, validation, configuration checks, output
  post-processing) is modelled as functions and lemmas.
- The resource data is a class `ResourceData` whose `id` field the operations
  update. This plays the part of `d.SetId`.
- The lock marker is a class `LockMarker` with a `present` field.
- `waitForLock` is a method with a loop over the successive answers of the
  file-existence check.
- The answer of the remote call is a parameter: a `CallResult` in the current
  generation, and the runner's captured `ProcessOutput` in the older one.
- Each operation also returns the command it hands to the remote side, or
  `None` when it stops before sending one.
- The template is a sequence of literal pieces and `{{.Field}}` holes.
  Rendering substitutes each field's value verbatim.

What the code does, as opposed to what one might expect from the design:

- In the current generation, Create creates the lock marker *before* it
  validates the record type.
- The marker is removed only on the success paths of Create and Delete. So a
  validation error or a remote error leaves the marker behind. The model keeps
  this behaviour, and `WinDNSResource.RejectedCreateLeavesMarker` walks through
  one such run.
- The current generation's Create is a plain Add, not an upsert.
- The older generation refuses PTR records.
- The runner ignores the process's exit status.

## Model

| member | source | states |
|---|---|---|
| Records.Identity | windns/resource_windns.go:92 | the identity is zone, "_", name, "_", type; its length is the three lengths plus two |
| Records.IdentityInjective | windns/resource_windns.go:92 | when zone and record names hold no '_', equal identities mean equal zone, name and type |
| Records.IdentityCollision | windns/resource_windns.go:92 | without that restriction two different (zone, name) pairs share an identity |
| Records.InterpretRead | windns/resource_windns.go:164-173 | no error means present; an error containing "ObjectNotFound" means absent; any other error is passed back verbatim |
| Records.NotFoundAnywhere | windns/resource_windns.go:165 | "ObjectNotFound" anywhere in the error text is recognised as absent |
| GoStrings.ContainsIffOccurs | windns/resource_windns.go:165 | the left-to-right scan agrees with "p occurs at some position of s" |
| GoStrings.ContainsInfix | windns/resource_windns.go:165 | a text holding p verbatim, whatever surrounds it, contains p |
| GoStrings.TrimRight | vendor/runpwsh/main.go:27 | the result is a prefix of the input; every removed character is in the cutset; the result does not end in a cutset character |
| GoStrings.TrimRightIdempotent | vendor/runpwsh/main.go:27 | trimming twice equals trimming once |
| Runpwsh.RunCommand | vendor/runpwsh/main.go:11-28 | error present iff stderr is non-empty, and then equal to stderr; the output has no trailing CR/LF; stdout is the output followed by CR/LF characters only |
| Runpwsh.ExitStatusIgnored | vendor/runpwsh/main.go:19-25 | changing the exit status changes nothing; a process with empty stderr reports no error |
| Runpwsh.OutputTrimmed | vendor/runpwsh/main.go:27 | trimming the returned output again leaves it unchanged |
| Runpwsh.Interpreter | vendor/runpwsh/main.go:33-37 | "powershell.exe" exactly when GOOS is "windows", "pwsh" otherwise |
| Runpwsh.Invocation | vendor/runpwsh/main.go:39 | the arguments are the interpreter, "-command" and the script as one untouched argument |
| WinDNSProvider.ProviderConfigure | windns/provider.go:68-106 | exactly one of client and error; error iff username is empty, or password is empty with usessh "0", or server is empty; the first failing check in that order decides the message; on success every setting and the lock-file path are copied verbatim |
| WinDNSProvider.EmptyPasswordNeedsSshOff | windns/provider.go:78-81 | an empty password is refused iff usessh is exactly "0", and accepted with any other usessh |
| VendorProvider.ProviderConfigure | vendor/windns/provider.go:30-41 | exactly one of client and error; error iff domain_controller is empty, with its fixed message; the client holds the given string unchanged |
| WinDNSResource.CreateCommand | windns/resource_windns.go:104-128 | A, CNAME and PTR succeed iff their data field is non-empty; every failure carries the error for its type, including unknown types; a success is the Add command, the type's data argument and the jump-host suffix |
| WinDNSResource.AddCommandSwitch | windns/resource_windns.go:115-125 | for A, CNAME and PTR the command spells out "-A", "-CNAME" or "-PTR" after the zone |
| WinDNSResource.JumpHostOnlyAppendsTarget | windns/resource_windns.go:104-108 | jump-host mode accepts the same records and only appends " -ComputerName " and the zone; every value other than "1" behaves like "0" |
| WinDNSResource.ReadCommand | windns/resource_windns.go:153-162 | the probe opens with the assignment to `$record`; it holds the Get-DnsServerResourceRecord lookup with zone, type and name verbatim, the jump-host suffix and "-ErrorAction Stop"; it ends with the catch that empties `$record` and the RECORD_FOUND report |
| WinDNSResource.DeleteCommand | windns/resource_windns.go:198-209 | the command starts with the Get pipeline iff usejumphost is "1"; both forms are stated in full |
| WinDNSResource.WaitForLock | windns/resource_windns.go:24-38 | returns true at the first poll that sees the marker absent; every earlier poll saw it present |
| WinDNSResource.Create | windns/resource_windns.go:81-143 | a command is sent iff the marker was created and validation passed; validation and remote errors are returned as they are; the identity is set iff no error; afterwards the marker is present iff it was created and an error followed |
| WinDNSResource.Read | windns/resource_windns.go:145-179 | sends the probe with the jump-host suffix; no error sets the identity; an ObjectNotFound error clears it and succeeds; any other error is returned with the identity unchanged; the marker is not touched |
| WinDNSResource.Delete | windns/resource_windns.go:181-224 | after the marker is created it sends the jump-host-dependent removal; the identity is cleared iff no error; afterwards the marker is present iff it was created and the remote call failed |
| VendorResource.MakeRecord | vendor/windns/resource_windns.go:86-94 | the record's Id is the identity of its own zone, name and type, so it is the string Read later assigns; the declared arguments and the client's domain controller are copied unchanged |
| VendorResource.RenderHole | vendor/windns/resource_windns.go:102-107 | rendering puts a field's value at its hole verbatim, with no escaping |
| VendorResource.UpsertScriptLayout | vendor/windns/resource_windns.go:22-44 | the script is the lookup, then the branch opened by "if ($record) { ", then the branch opened by "else {" |
| VendorResource.ProbeSectionText | vendor/windns/resource_windns.go:23-25 | the lookup is Get-DnsServerResourceRecord with zone, type and name verbatim and the domain controller as target |
| VendorResource.FoundSectionText | vendor/windns/resource_windns.go:26-36 | the modifying branch is, in this order, the switch head, the A case setting RecordData to the IPv4 address, the CNAME case setting it to the alias, the copy of type and name, and the Set-DnsServerResourceRecord call on the domain controller |
| VendorResource.ElseSectionText | vendor/windns/resource_windns.go:37-44 | the adding branch is, in this order, the switch head, the A case and the CNAME case, each calling Add-DnsServerResourceRecord on the domain controller, with -IPv4Address for A and -HostNameAlias for CNAME |
| VendorResource.CreateTemplateTargetsController | vendor/windns/resource_windns.go:22-44 | every literal piece of the upsert script that ends in "-ComputerName '" is followed by the DomainController field |
| VendorResource.Validate | vendor/windns/resource_windns.go:109-120 | accepts exactly A with an address and CNAME with an alias; every other type, PTR included, gets the unknown-type error |
| VendorResource.Create | vendor/windns/resource_windns.go:82-131 | the rendered upsert script is sent iff the record is valid; stderr text is returned as the error; the identity is set iff no error |
| VendorResource.Read | vendor/windns/resource_windns.go:133-160 | sends the probe addressed to the domain controller; no stderr sets the identity; ObjectNotFound clears it and succeeds; other stderr is returned with the identity unchanged |
| VendorResource.Delete | vendor/windns/resource_windns.go:162-184 | sends exactly the Remove command addressed to the domain controller; error iff stderr is non-empty; the identity is cleared iff no error |

## Left out

- The remote call itself (goPSRemoting over WinRM or SSH, credentials) and
  process execution in the runner (`exec.Command`). Their outcome is a parameter
  of each operation, and the output they return is ignored by the source too.
- File-system calls. The lock-marker file is the `present` field of
  `LockMarker`. A failing `os.Create` is an error parameter of Create and
  Delete. `file.Close` and `os.Remove` are taken to succeed, because the source
  ignores their errors.
- WinDNSResource.WaitForLock: the random jitter, the sleeps and any claim of
  mutual exclusion between processes are not modelled. The source polls
  forever while the marker stays present, so the method requires that some
  poll sees it absent.
- WinDNSResource.Create and WinDNSResource.Delete: the hang after a stale
  marker is not modelled. The lock-file path is fixed for the whole provider
  session, and a failed Create or Delete leaves the marker behind. Every later
  Create or Delete of that session then polls forever, unless something
  outside the provider deletes the file. Both methods require the first poll
  to agree with the marker and some poll to see it absent, so such a run is
  outside their contracts.
  `RejectedCreateLeavesMarker` ends with the marker still present.
- VendorResource.CreateTemplateTargetsController: only literal pieces that end
  in "-ComputerName '" are covered. That no other literal of the template
  mentions "-ComputerName" is not proved, because a character-by-character
  proof over every literal is too costly for the verifier.
- The temporary file in the current generation's `providerConfigure`. The
  lock-file path is an input. The path where `ioutil.TempFile` fails (the
  source then calls `Name()` on a nil file) is not modelled.
- Parse and Execute errors of the text template in the older Create. The
  template is a constant that parses, and rendering a `DNSRecord` of strings
  cannot fail, so those returns cannot be taken.
- The internals of Go's `text/template`. Rendering is direct substitution of
  field values.
- What the PowerShell scripts do on the server, e.g. which branch of the
  upsert script runs. Only the script text is modelled.
- Terraform schema declarations, the `Provider()` maps and their environment
  defaults. This includes `autocreateptr` taking its default from the
  `USEJUMPHOST` variable (windns/provider.go:56) and never being used by the
  resource. `main.go`'s plugin entry point is not part of this model either.
