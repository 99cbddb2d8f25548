/**
  The host the handlers act on, reduced to what they read and change, and
  every external call they make, as a step that succeeds or fails.
 */
module Host {
  import opened Results
  import opened Records
  import opened Configs
  import opened Manifest

  datatype ImageFormat = Png | Jpeg | Gif | OtherFormat

  /** What a file holds, as far as the handlers can tell. */
  datatype Content =
    | Json(manifest: Manifest)                              // bytes that unmarshal into the Manifest struct
    | Image(format: ImageFormat, width: nat, height: nat)   // an encoded raster image
    | Opaque                                                // any other bytes

  /** The files of one instance directory, by path relative to it. */
  type Tree = map<string, Content>

  datatype Host = Host(
    caskers: map<string, Tree>,        // ./caskers/<name> directories, the template included
    storage: map<string, Content>,     // uploaded record files (read only here)
    system: map<string, ConfigFile>,   // unit files and nginx fragments by absolute path, each holding Render of its value
    enabled: set<string>,              // units systemd starts at boot
    running: set<string>,              // units systemd runs now
    nginx: map<string, ConfigFile>,    // the fragments nginx loaded at its last (re)start
    decoders: set<ImageFormat>)        // formats other linked packages registered an image decoder for

  datatype Verb = Enable | Disable | Start | Stop | Restart | Reload

  /** One call the handlers make, with the arguments it is made with. */
  datatype Step =
    | CopyTemplate(name: string)                                   // copy.Copy of the template directory
    | PatchManifest(name: string)                                  // UpdateManifest, errors only logged
    | RequireString(field: string, value: Value)                   // a comma-ok type assertion on a record field
    | CopyIcon(source: string, name: string, size: IconSize)       // copyFile of the uploaded icon
    | ResizeIcon(name: string, size: IconSize)                     // resizeImage of that copy, in place
    | WriteFile(path: string, file: ConfigFile)                    // os.WriteFile of Render(file)
    | Systemctl(verb: Verb, unit: string)                          // exec of systemctl
    | RemoveDir(name: string)                                      // os.RemoveAll of ./caskers/<name>
    | RemoveFile(path: string)                                     // os.Remove

  /**
    Why a step failed. `Refused` stands for whatever the environment refuses
    (permissions, disk, systemd); `NotActive` is systemd refusing to reload a
    unit that is not running.
   */
  datatype Cause = Refused | NotFound | NotActive | Undecodable | NotAString

  /**
    Whether `image.Decode` can read an image of this format. Its registry is
    shared by the whole process: main.go's import of image/png registers PNG,
    and the other linked packages may register more (`decoders`).
   */
  predicate Decodes(h: Host, format: ImageFormat) {
    format == Png || format in h.decoders
  }

  /**
    Whether the instance's pb_public directory exists. Directories are not
    modelled apart from their files: one exists iff some file lies under it.
   */
  predicate HasPublicDir(tree: Tree) {
    exists f :: f in tree && PublicDir <= f
  }

  /**
    Whether systemd knows the unit. nginx's unit comes with nginx; a tenant's
    unit is known iff its unit file is in /lib/systemd/system.
   */
  predicate UnitKnown(h: Host, unit: string) {
    unit == ProxyUnit || UnitFileOf(unit) in h.system
  }

  /**
    ./caskers/<name> after copy.Copy of the template: the template's files
    over whatever the directory already held.
   */
  function Cloned(h: Host, name: string): Tree
    requires TemplateName in h.caskers
  {
    if name in h.caskers then h.caskers[name] + h.caskers[TemplateName] else h.caskers[TemplateName]
  }

  /** The fragments nginx picks up from its fragment directory when it (re)loads. */
  function Loaded(system: map<string, ConfigFile>): (m: map<string, ConfigFile>)
    ensures forall p :: p in m <==> p in system && InRouteDir(p)
    ensures forall p :: p in m ==> m[p] == system[p]
  {
    map p | p in system && InRouteDir(p) :: system[p]
  }

  datatype ManifestError = ReadFailed | UnmarshalFailed | WriteFailed

  /**
    UpdateManifest: read the instance's manifest, unmarshal it, patch the
    identity fields, write it back. `writeFails` stands for a write the
    environment refuses. On success only that one file of that one instance
    changes.
   */
  function UpdateManifest(name: string, h: Host, writeFails: bool): (r: Result<Host, ManifestError>)
    ensures r.Ok? <==>
      name in h.caskers && ManifestFile in h.caskers[name] && h.caskers[name][ManifestFile].Json? && !writeFails
    ensures name !in h.caskers || ManifestFile !in h.caskers[name] ==> r == Err(ReadFailed)
    ensures r.Ok? ==> name in h.caskers && name in r.value.caskers
    ensures r.Ok? ==>
      var before, after := h.caskers[name], r.value.caskers[name];
      && r.value == h.(caskers := h.caskers[name := after])
      && after.Keys == before.Keys
      && (forall f :: f in before && f != ManifestFile ==> after[f] == before[f])
      && after[ManifestFile].Json?
      && HasIdentity(after[ManifestFile].manifest, name)
      && SameExceptIdentity(before[ManifestFile].manifest, after[ManifestFile].manifest)
  {
    if name !in h.caskers || ManifestFile !in h.caskers[name] then Err(ReadFailed)
    else
      var tree := h.caskers[name];
      match tree[ManifestFile]
      case Json(m) =>
        if writeFails then Err(WriteFailed)
        else Ok(h.(caskers := h.caskers[name := tree[ManifestFile := Json(Patch(m, name))]]))
      case _ => Err(UnmarshalFailed)
  }

  /**
    Whether a step may change the artifacts of tenant `a`. A reload changes
    what nginx serves and no unit's state.
   */
  predicate Concerns(step: Step, a: string) {
    match step
    case CopyTemplate(n) => n == a
    case PatchManifest(n) => n == a
    case RequireString(_, _) => false
    case CopyIcon(_, n, _) => n == a
    case ResizeIcon(n, _) => n == a
    case WriteFile(p, _) => p == UnitPath(a) || p == RoutePath(a)
    case Systemctl(v, u) => u == ServiceName(a) && v != Reload
    case RemoveDir(n) => n == a
    case RemoveFile(p) => p == UnitPath(a) || p == RoutePath(a)
  }

  /** Tenant `a`'s directory, unit file, nginx fragment and unit state agree in both hosts. */
  predicate SameArtifacts(h1: Host, h2: Host, a: string) {
    && Lookup(h1.caskers, a) == Lookup(h2.caskers, a)
    && Lookup(h1.system, UnitPath(a)) == Lookup(h2.system, UnitPath(a))
    && Lookup(h1.system, RoutePath(a)) == Lookup(h2.system, RoutePath(a))
    && (ServiceName(a) in h1.enabled <==> ServiceName(a) in h2.enabled)
    && (ServiceName(a) in h1.running <==> ServiceName(a) in h2.running)
  }

  /** The effect of a systemctl call systemd accepted. */
  function Control(h: Host, verb: Verb, unit: string): Host {
    var reloaded := if unit == ProxyUnit then Loaded(h.system) else h.nginx;
    match verb
    case Enable => h.(enabled := h.enabled + {unit})
    case Disable => h.(enabled := h.enabled - {unit})
    case Start => h.(running := h.running + {unit})
    case Stop => h.(running := h.running - {unit})
    case Restart => h.(running := h.running + {unit}, nginx := reloaded)
    case Reload => h.(nginx := reloaded)
  }

  /**
    The outcome of one systemctl call: systemd must know the unit, a reload
    needs it running, and `refused` stands for a call the environment refuses.
   */
  function Systemd(h: Host, verb: Verb, unit: string, refused: bool): Result<Host, Cause> {
    if !UnitKnown(h, unit) then Err(NotFound)
    else if verb == Reload && unit !in h.running then Err(NotActive)
    else if refused then Err(Refused)
    else Ok(Control(h, verb, unit))
  }

  /**
    Performs one step. A step fails when the host lacks what it reads (the
    template, the uploaded icon, the directory an icon is copied into, the
    unit systemctl acts on, a file to remove), when a reloaded unit is not
    running, when an icon is in a format no
    registered decoder reads, or when the environment refuses it
    (`step in faults`). A failed step changes nothing. A manifest update
    failure is swallowed: the step then succeeds without effect.
   */
  function Apply(step: Step, h: Host, faults: set<Step>): (r: Result<Host, Cause>)
    ensures r.Ok? ==> r.value.storage == h.storage && r.value.decoders == h.decoders
    ensures step.PatchManifest? ==> r.Ok?
    ensures step.RequireString? ==> (r.Ok? <==> step.value.StringValue?) && (r.Ok? ==> r.value == h)
    ensures r.Ok? && !(step.Systemctl? && step.unit == ProxyUnit && (step.verb == Restart || step.verb == Reload)) ==>
      r.value.nginx == h.nginx
  {
    match step
    case CopyTemplate(name) =>
      if TemplateName !in h.caskers then Err(NotFound)
      else if step in faults then Err(Refused)
      else
        Ok(h.(caskers := h.caskers[name := Cloned(h, name)]))
    case PatchManifest(name) =>
      (match UpdateManifest(name, h, step in faults)
       case Ok(patched) => Ok(patched)
       case Err(_) => Ok(h))
    case RequireString(_, v) =>
      if v.StringValue? then Ok(h) else Err(NotAString)
    case CopyIcon(source, name, size) =>
      // os.Open of the upload, then os.Create, which makes no parent directory
      if source !in h.storage || name !in h.caskers || !HasPublicDir(h.caskers[name]) then Err(NotFound)
      else if step in faults then Err(Refused)
      else Ok(h.(caskers := h.caskers[name := h.caskers[name][IconFile(size) := h.storage[source]]]))
    case ResizeIcon(name, size) =>
      if name !in h.caskers || IconFile(size) !in h.caskers[name] then Err(NotFound)
      else if !(h.caskers[name][IconFile(size)].Image? && Decodes(h, h.caskers[name][IconFile(size)].format)) then
        Err(Undecodable)
      else if step in faults then Err(Refused)
      else
        var resized := Image(Png, Pixels(size), Pixels(size));
        Ok(h.(caskers := h.caskers[name := h.caskers[name][IconFile(size) := resized]]))
    case WriteFile(path, file) =>
      if step in faults then Err(Refused) else Ok(h.(system := h.system[path := file]))
    case Systemctl(verb, unit) =>
      Systemd(h, verb, unit, step in faults)
    case RemoveDir(name) =>
      if name !in h.caskers then Ok(h)
      else if step in faults then Err(Refused)
      else Ok(h.(caskers := h.caskers - {name}))
    case RemoveFile(path) =>
      if path !in h.system then Err(NotFound)
      else if step in faults then Err(Refused)
      else Ok(h.(system := h.system - {path}))
  }

  /**
    The outcomes of single steps the handlers rely on: an icon copy needs the
    pb_public directory, a resize needs a registered decoder, systemctl needs
    a unit systemd knows, a reload needs the unit running, and a restart or
    reload of nginx makes it serve exactly the fragments in its fragment
    directory.
   */
  lemma StepOutcomes(step: Step, h: Host, faults: set<Step>)
    ensures var r := Apply(step, h, faults);
      r.Ok? && step.Systemctl? && step.unit == ProxyUnit && (step.verb == Restart || step.verb == Reload) ==>
        r.value.nginx == Loaded(h.system)
    ensures step.Systemctl? && !UnitKnown(h, step.unit) ==> Apply(step, h, faults) == Err(NotFound)
    ensures step.Systemctl? && step.verb == Reload && UnitKnown(h, step.unit) ==>
      (Apply(step, h, faults) == Err(NotActive) <==> step.unit !in h.running)
    ensures step.CopyIcon? && (step.name !in h.caskers || !HasPublicDir(h.caskers[step.name])) ==>
      Apply(step, h, faults) == Err(NotFound)
    ensures step.ResizeIcon? && step.name in h.caskers && IconFile(step.size) in h.caskers[step.name] ==>
      var icon := h.caskers[step.name][IconFile(step.size)];
      (Apply(step, h, faults) == Err(Undecodable) <==> !(icon.Image? && Decodes(h, icon.format)))
  {
  }

  /** A step leaves alone every tenant it does not concern. */
  lemma StepKeepsOthers(step: Step, h: Host, faults: set<Step>, a: string)
    requires Apply(step, h, faults).Ok? && !Concerns(step, a)
    ensures SameArtifacts(h, Apply(step, h, faults).value, a)
  {
    if step.CopyTemplate? || step.PatchManifest? || step.CopyIcon? || step.ResizeIcon? || step.RemoveDir? {
      DirectoryStepKeepsOthers(step, h, faults, a);
    } else if step.WriteFile? || step.RemoveFile? {
      FileStepKeepsOthers(step, h, faults, a);
    }
  }

  lemma DirectoryStepKeepsOthers(step: Step, h: Host, faults: set<Step>, a: string)
    requires step.CopyTemplate? || step.PatchManifest? || step.CopyIcon? || step.ResizeIcon? || step.RemoveDir?
    requires Apply(step, h, faults).Ok? && !Concerns(step, a)
    ensures SameArtifacts(h, Apply(step, h, faults).value, a)
  {
    var h' := Apply(step, h, faults).value;
    assert h'.system == h.system && h'.enabled == h.enabled && h'.running == h.running;
    assert Lookup(h'.caskers, a) == Lookup(h.caskers, a);
  }

  lemma FileStepKeepsOthers(step: Step, h: Host, faults: set<Step>, a: string)
    requires step.WriteFile? || step.RemoveFile?
    requires Apply(step, h, faults).Ok? && !Concerns(step, a)
    ensures SameArtifacts(h, Apply(step, h, faults).value, a)
  {
    var h' := Apply(step, h, faults).value;
    assert h'.caskers == h.caskers && h'.enabled == h.enabled && h'.running == h.running;
    assert Lookup(h'.system, UnitPath(a)) == Lookup(h.system, UnitPath(a));
    assert Lookup(h'.system, RoutePath(a)) == Lookup(h.system, RoutePath(a));
  }

  /** The steps that work inside one instance directory. */
  predicate InDirectory(step: Step, name: string) {
    || step == CopyTemplate(name)
    || step == PatchManifest(name)
    || (step.CopyIcon? && step.name == name)
    || (step.ResizeIcon? && step.name == name)
  }

  /** A directory step changes that one directory and nothing else on the host. */
  lemma DirectoryStepEffect(step: Step, name: string, h: Host, faults: set<Step>)
    requires InDirectory(step, name) && Apply(step, h, faults).Ok?
    requires step.CopyTemplate? || name in h.caskers
    ensures var h' := Apply(step, h, faults).value;
      name in h'.caskers && h' == h.(caskers := h.caskers[name := h'.caskers[name]])
    ensures step.ResizeIcon? ==>
      var size := step.size;
      Apply(step, h, faults).value.caskers[name] == h.caskers[name][IconFile(size) := Image(Png, Pixels(size), Pixels(size))]
    ensures step.CopyIcon? ==>
      Apply(step, h, faults).value.caskers[name] == h.caskers[name][IconFile(step.size) := h.storage[step.source]]
    ensures step.CopyTemplate? ==>
      var template, after := h.caskers[TemplateName], Apply(step, h, faults).value.caskers[name];
      && (forall f :: f in template ==> f in after && after[f] == template[f])
      && (name in h.caskers ==> forall f :: f in h.caskers[name] && f !in template ==> f in after && after[f] == h.caskers[name][f])
      && (forall f :: f in after ==> f in template || (name in h.caskers && f in h.caskers[name]))
  {
  }

  /** Removing a file that is not there fails, whatever the environment does. */
  lemma RemoveMissingFails(path: string, h: Host, faults: set<Step>)
    requires path !in h.system
    ensures Apply(RemoveFile(path), h, faults) == Err(NotFound)
  {
  }
}
