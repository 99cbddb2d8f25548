# CaskerBase provisioning, modelled in Dafny

CaskerBase hosts one small application instance (a "casker") per tenant. The
record service stores a record per tenant and fires two hooks:

- The **create** hook normalises the record's `port` field and checks that
  `name` is a string.
  - It clones the template directory `./caskers/default` to `./caskers/<name>`
    (a copy error is returned). It then patches the web-app manifest's
    identity fields; errors in the patch are only logged.
  - It checks that `id` and `icon` are strings, then copies the uploaded icon
    in twice and resizes it to 192 and 512 pixels.
  - It writes a systemd unit, then enables and starts it.
  - It writes an nginx location fragment and restarts nginx.
- The **delete** hook removes the directory, disables and stops the unit, and
  removes the nginx fragment. It then calls `RemoveServiceAndConfig`, which
  removes the unit file and the nginx fragment and reloads nginx.

Both hooks stop at the first failing step and undo nothing. The web form picks
the tenant's port itself: it takes the lowest port in 8092..8190 that no record
uses yet. Only records whose port is a number count as using it: `Set.has`
never matches a port stored as text.

The model, by module:

- `Decimal`: Go's `strconv.Atoi` and the `%d` rendering, on unbounded integers.
  The 64-bit range checks are written out.
- `Records`: the dynamically typed record fields.
- `Port`: the create hook's port normalisation.
- `Manifest`: the manifest struct and the identity patch.
- `Configs`: the derived paths and the unit and nginx texts.
- `Naming`: the injectivity and disjointness facts that keep tenants apart.
- `Host`: the host as maps and sets, with every external call as a `Step`.
  - Whether the environment refuses a call (permissions, disk, systemd) is the
    parameter `faults: set<Step>`.
  - Failures that follow from the host itself are computed: a missing template,
    an icon copied into a directory without `pb_public/`, an icon no
    registered decoder reads, a systemctl call on a unit whose file is gone,
    a missing file to remove.
  - A step that fails changes nothing.
  - A unit file or nginx fragment is held as the `ConfigFile` it was written
    from. Its text is `Configs.Render` of that value, that is, `UnitText` or
    `RouteText`.
- `Pipeline`: the abort-on-first-error executor.
- `Handlers`: the two hooks as written, plus a corrected delete.
- `PortSearch`: the form's port search.

## Model

| member | source | states |
|---|---|---|
| Decimal.Atoi | main.go:54-59 | Atoi accepts exactly one optional sign followed by at least one digit, with a value in the signed 64-bit range, and returns that value. A well-formed input out of range is a range error. An empty input or a bare sign is a syntax error. |
| Decimal.ParseUint | main.go:56 | The unsigned parse underneath Atoi accepts exactly the non-empty all-digit strings whose value fits in 64 bits, and returns that value. An all-digit string that does not fit is a range error. |
| Decimal.ScanDigits | main.go:56 | The digit loop succeeds iff the rest of the input is all digits with a value that fits in 64 bits. Overflow is reported as a range error. |
| Decimal.FormatInt | main.go:326 | `%d` gives a well-formed decimal whose value is the integer. It carries a minus sign iff the integer is negative, never a plus sign, and no leading zero. |
| Decimal.AtoiInvertsFormatInt | main.go:326 | For every 64-bit integer, Atoi of its `%d` rendering gives the integer back. |
| Decimal.FormatIntInjective | main.go:354 | Distinct ports render to distinct text, so distinct ports give distinct proxy addresses. |
| Port.DecodePort | main.go:35-61 | An int is kept. A float is accepted iff it is whole and then keeps its value; otherwise the error says it is fractional. A string is accepted iff Atoi parses it, with Atoi's value and error. Any other type is rejected as unsupported. |
| Port.EncodingsAgree | main.go:35-61 | For every 64-bit n, the int n, the float n and the decimal string of n all decode to the same port n. |
| Port.PortExamples | main.go:38-59 | 8080, 8080.0 and "8080" decode to 8080. 8080.5, "8080.0", "abc" and "" are rejected. "0" and "-1" are accepted. |
| Manifest.Patch | main.go:291-294 | The patched manifest has name = short name = the tenant name and id = "/" + name, and every other field of the original. |
| Manifest.PatchCharacterized | main.go:291-294 | A manifest is the patch of m by name iff it has that identity and agrees with m on every other field. |
| Manifest.PatchIdempotent | main.go:292-294 | Patching twice with the same name is the same as patching once. |
| Manifest.PatchLastWins | main.go:292-294 | Patching with a and then with b is the same as patching with b alone. |
| Manifest.PatchForgetsOnlyIdentity | main.go:292-294 | Two templates patch to the same manifest iff they agree outside the identity fields. |
| Manifest.NameFromId | main.go:294 | The name can be recovered from the patched id by dropping its leading slash. |
| Configs.UnitTextMentions | main.go:312-330 | The unit text names the tenant in Description and WorkingDirectory. It starts the instance's binary serving on 127.0.0.1 at the decoded port, restarts always, and is wanted by multi-user.target. |
| Configs.RouteTextMentions | main.go:340-356 | The fragment routes `/<name>/` and strips that prefix. It proxies to 127.0.0.1 at the decoded port with a 360 s read timeout. |
| Naming.UnitPathInjective | main.go:333 | Distinct tenants get distinct unit file paths. |
| Naming.RoutePathInjective | main.go:358 | Distinct tenants get distinct nginx fragment paths. |
| Naming.ServiceNameInjective | main.go:134 | Distinct tenants get distinct unit names. |
| Naming.UnitAndRouteApart | main.go:333 | A unit file is never an nginx fragment path, for any two tenants. Unit files lie outside the fragment directory and fragments lie inside it. |
| Naming.InstanceFilesDistinct | main.go:100-114 | The two icon files and the manifest of an instance are three different files. |
| Naming.ServiceIsProxyOnlyForNginx | main.go:134-160 | systemctl appends `.service` to the bare name `nginx`, so the hooks restart and reload `nginx.service`. A tenant's unit `<name>.service` is that unit iff the tenant is named nginx. |
| Host.UpdateManifest | main.go:274-309 | The update succeeds iff the manifest file exists, unmarshals and can be written; a missing file is a read error. On success only that file of that instance changes: it gets the tenant identity and keeps every other field. |
| Host.Apply | main.go:76-384 | A manifest update never fails. A field check succeeds iff the field is a string, and changes nothing. Only a restart or reload of nginx.service changes what nginx serves. Uploaded files and the decoder registry are never changed. |
| Host.StepOutcomes | main.go:100-206 | An icon copy into an instance without `pb_public/` fails with not-found, as os.Create makes no parent directory (main.go:227). A resize fails as undecodable iff the icon is not an image in a format with a registered decoder (main.go:395). A systemctl call on a tenant unit whose unit file is gone fails with not-found. A reload of a unit systemd knows fails as not active iff the unit is not running, so a reload of a stopped nginx fails (main.go:377-380). After a successful restart or reload, nginx serves exactly the fragments in its fragment directory. |
| Host.StepKeepsOthers | main.go:73-114 | A successful step that does not concern tenant a leaves a's directory, unit file, fragment and unit state as they were. |
| Host.DirectoryStepEffect | main.go:72-126 | A successful template copy, manifest patch, icon copy or resize changes that one instance directory and nothing else. The template copy puts every template file in the instance directory and keeps the files it already had that the template lacks, and nothing else. An icon copy puts the upload at the icon path; a resize leaves a PNG of exactly 192×192 or 512×512 there. |
| Host.RemoveMissingFails | main.go:196-199 | Removing a file that is not there fails with not-found, whatever the environment does. |
| Pipeline.RunFrom | main.go:76-163 | A run either attempts every step without error, or stops at the first failing step, and the error names that step. |
| Pipeline.RunFailure | main.go:76-163 | The failure a run reports is the one its failing step returns on the host the run returns. |
| Pipeline.NoRollback | main.go:76-161 | A failed run returns exactly the host that running the steps before the failing one, all of which succeeded, produces. |
| Pipeline.RunKeepsOthers | main.go:73-161 | A run whose steps do not concern tenant a leaves a's artifacts as they were, whatever fails. |
| Pipeline.RunKeepsNginx | main.go:376-381 | A run with no restart or reload of nginx.service leaves what nginx serves unchanged. |
| Handlers.Create | main.go:31-164 | A bad port or a non-string name is rejected before any step, with the host unchanged. Otherwise at most 13 steps are attempted, and a failure names the plan step that failed. Uploads are never changed. |
| Handlers.ManifestErrorSwallowed | main.go:80-83 | No create ever fails at the manifest update. |
| Handlers.CreateKeepsPartialWork | main.go:76-161 | A failed create keeps the effects of every step before the failing one. |
| Handlers.IdCheckedAfterCopy | main.go:76-89 | A record whose id is not a string fails at the third step, with the cloned instance directory left behind. |
| Handlers.ProvisionedIsActive | main.go:128-161 | A provisioned instance is active: its directory exists, its unit is installed, enabled and running, and nginx serves its route. |
| Handlers.CreateSuccessProvisions | main.go:128-163 | A create that returns no error adds only the instance directory with both resized icons, the unit file and the fragment. It also enables and starts the unit and restarts nginx on the new fragment. |
| Handlers.CreateSucceedsWithoutFaults | main.go:31-164 | With the template and its `pb_public/` present, a well-typed record, an upload a registered decoder reads and no refused call, create succeeds, even when an instance of that name exists. The instance directory is then the clone with its manifest patched and both icons resized; for a new name that is the template so changed. Every other template file is in the instance unchanged, and the manifest is the template's patched with the tenant name. |
| Handlers.CreateKeepsOtherTenants | main.go:72-160 | Creating one casker, whatever fails, leaves every other casker's directory, unit file, fragment and unit state as they were. A casker named nginx is excluded, because its unit is the nginx.service that every create restarts. |
| Handlers.DeleteAsWritten | main.go:166-206 | A non-string name is rejected with the host unchanged. Uploads are never changed. |
| Handlers.DeleteAsWrittenAlwaysFails | main.go:194-203 | The delete hook as written never succeeds, never reaches its nginx reload, and never changes what nginx serves. If it gets to the sixth step, that step fails because the fragment was already removed, after the directory, unit file and fragment are gone. |
| Handlers.RouteGoneBeforeSecondRemoval | main.go:371-374 | A delete as written that gets past its fifth step fails at the sixth, removing the fragment a second time. |
| Handlers.DeleteAsWrittenReachesSecondRemoval | main.go:175-199 | With both files present and no refused call, the delete as written gets as far as the second removal. |
| Handlers.DeleteAsWrittenLeavesRouteServed | main.go:194-203 | After a create, the delete as written fails with the fragment removed while nginx still serves the tenant's route. |
| Handlers.Delete | main.go:166-206 | The corrected delete rejects a non-string name before any step and attempts at most 6 steps. A failure names the plan step that failed. |
| Handlers.DeleteSuccessClears | main.go:175-203 | The corrected delete, when it returns no error, found both files and nginx running apart from the tenant's own unit. It removed the directory, both files and the unit's boot and run state. nginx then serves the remaining fragments. |
| Handlers.DeleteWithoutFaults | main.go:175-206 | The corrected delete, without refused calls, succeeds iff the unit file and the fragment both exist and nginx.service is still running once the tenant's unit is stopped. Without the unit file it fails at the disable of main.go:183-187 with not-found; for a tenant named nginx, whose unit systemd always knows, it fails instead at the unit file's removal. With the unit file but without the fragment it fails at the fragment removal. With both files but nginx not running, it fails at the reload of main.go:377-380 as not active. |
| Handlers.DeleteUndoesCreate | main.go:166-206 | The corrected delete of a freshly provisioned instance gives back exactly the host before the create. |
| Handlers.ClearedUndoesProvisioned | main.go:175-203 | The corrected delete's clearing of an instance that provisioning added to a host that lacked it gives back that host. |
| Handlers.CreateThenDeleteRestores | main.go:31-206 | Create followed by the corrected delete, with no refused call, is the identity on a host where the instance did not exist, given the template with its `pb_public/` and an upload a registered decoder reads. |
| Handlers.DeleteTwiceFails | main.go:175-187 | The corrected delete is not idempotent: after it succeeds, deleting again fails at the disable, because systemd no longer knows the unit. |
| Handlers.DeleteKeepsOtherTenants | main.go:175-203 | Deleting one casker, as written or corrected, leaves every other casker's artifacts as they were. |
| PortSearch.UsedPorts | src/scripts/form.js:46-50 | An integer port is used iff some record holds it as a number: an int, or a float equal to it. A port held as text or a fractional number uses no integer port. |
| PortSearch.FirstAvailable | src/scripts/form.js:48-55 | The result lies in the range, is unused, and every port below it in the range is used. There is no result iff every port of the range is used, which always holds for an empty range. |
| PortSearch.FindFirstAvailablePort | src/scripts/form.js:39-56 | The loop returns an in-range, unused, minimal port, and throws iff every port of the range is used. It agrees with FirstAvailable on every input. |
| PortSearch.RecordOrderIrrelevant | src/scripts/form.js:41-46 | Records that are a permutation of each other give the same used set and the same answer, so the sort order requested does not matter. |
| PortSearch.SearchDependsOnlyOnRange | src/scripts/form.js:49-53 | Used sets that agree inside the range give the same answer. |
| PortSearch.TakingThePortAdvances | src/scripts/form.js:15-24 | Once the found port is taken, the next search returns a strictly larger port. |
| PortSearch.TextPortIsNotUsed | src/scripts/form.js:46-50 | Adding a record whose port is text leaves the used ports as they were, so with one record whose port is "8092" the form's search returns 8092. |
| PortSearch.FormFindsPortWhileRoomLeft | src/scripts/form.js:15 | The form's search of 8092..8190 finds a port whenever there are fewer than 99 records, whatever they hold. |

## Left out

- PocketBase itself, the HTTP routes, the static file server and the record API are not modelled. The record arrives as a parameter.
- Whether a shell command, file write or systemctl call succeeds depends on the environment. It is the parameter `faults`; systemd's and nginx's internal behaviour is not modelled.
- A step that fails partway is taken to change nothing. For example, a partial copy or a half-written file is not modelled.
- copy.Copy is taken to write the template's files over an existing directory without deleting extra files. That library is not part of this model.
- The image library, Lanczos resampling and PNG encoding are not modelled. An icon is a format and a size. Which formats decode depends on the decoders the linked packages register in image.Decode's shared registry. main.go's import of image/png registers PNG; the others are the host parameter `decoders`.
- Directories are modelled only through the files under them. An empty `pb_public/` directory is not represented, so the model takes the directory to exist iff some file lies under it.
- nginx is assumed to include every file under /etc/nginx/sites-partials/. That is deployment configuration, not something main.go shows.
- systemd is taken to know a tenant's unit iff its unit file is in /lib/systemd/system, and to know nginx.service always. Its in-memory unit state and daemon reloads are not modelled. A reload of a unit that is not running is refused; a restart starts it.
- nginx's own unit file is not in the model's file map. A tenant named nginx writes and removes /lib/systemd/system/nginx.service, which the model treats only as that tenant's unit file.
- Handlers.CreateKeepsOtherTenants: does not cover a casker named nginx. Every create restarts nginx.service, which is that casker's unit, so its run state can change.
- JSON bytes, MarshalIndent formatting and unknown JSON keys are not modelled. A manifest file either unmarshals into the struct or does not, and marshalling never fails.
- Port.DecodePort: floats are exact reals. NaN, infinities and the conversion of whole floats outside the 64-bit range (implementation-defined in Go) are not modelled.
- Decimal.Atoi: the fast path Go takes for inputs shorter than 19 bytes is not modelled separately. It gives the same results as the ParseInt path modelled here.
- Decimal.Atoi: string lengths are counted in characters, not bytes. Only ASCII digits and signs matter, and they agree.
- Names that are not plain path components (the empty name, names containing `/` or `..`, or the template name "default") are not treated specially. The model treats each name as an opaque key and does not model path aliasing on the file system.
- Handlers.DeleteKeepsOtherTenants: holds for names as opaque keys only. For the empty name, the program's delete runs os.RemoveAll on `./caskers/` and removes every instance (main.go:175-178).
- Create does not check that the port is positive or that the name is new. Delete stops at the first error instead of attempting every step. Delete is not idempotent. The model follows the code on all four points.
- The commented-out CreateNginxSymlink is not modelled.
- form.js's DOM handling, form submission and redirect are not modelled. The record list is a parameter of the port search, reduced to its ports.

## Findings

| source | as written | input that shows it | evidently intended | confidence | as-written member | corrected member |
|---|---|---|---|---|---|---|
| main.go:194-203 | The delete hook removes the nginx fragment itself and then calls RemoveServiceAndConfig, which removes the same fragment again (main.go:371). os.Remove of a missing file fails, so the hook always returns an error. The nginx reload at main.go:377 never runs, and nginx keeps serving the route of the deleted tenant. | Any freshly created casker, deleted with no other failure. The sixth step fails with not-found. | Remove the fragment once and reload nginx, so that delete undoes create. | high, not executed | Handlers.DeleteAsWrittenAlwaysFails | Handlers.DeleteUndoesCreate |
