/**
  The two record hooks of main.go: provisioning a casker after its record is
  created and tearing it down after its record is deleted.
 */
module Handlers {
  import opened Results
  import opened Records
  import opened Port
  import opened Configs
  import opened Naming
  import opened Manifest
  import opened Host
  import opened Pipeline

  /** Where the uploaded icon of the record lives (empty segments where a field was no string). */
  function IconSource(rec: Record): string {
    IconSourcePath(AsString(rec.id), AsString(rec.icon))
  }

  /** The steps of the create hook after validation, in the order it makes them. */
  function CreatePlan(name: string, port: int, rec: Record): seq<Step> {
    var source := IconSource(rec);
    [ CopyTemplate(name),
      PatchManifest(name),
      RequireString("id", rec.id),
      RequireString("icon", rec.icon),
      CopyIcon(source, name, Icon192),
      ResizeIcon(name, Icon192),
      CopyIcon(source, name, Icon512),
      ResizeIcon(name, Icon512),
      WriteFile(UnitPath(name), UnitFile(name, port)),
      Systemctl(Enable, ServiceName(name)),
      Systemctl(Start, ServiceName(name)),
      WriteFile(RoutePath(name), RouteFile(name, port)),
      Systemctl(Restart, ProxyUnit) ]
  }

  const CreateLength: nat := 13

  /**
    The create hook: decode the port, require a string name, then run the
    plan. Validation failures return before anything on the host changes;
    a failing step returns its error and keeps what earlier steps did.
   */
  function Create(rec: Record, h: Host, faults: set<Step>): (r: Report)
    ensures DecodePort(rec.port).Err? ==> r == Report(h, 0, Some(Rejected(BadPort(DecodePort(rec.port).error))))
    ensures DecodePort(rec.port).Ok? && !rec.name.StringValue? ==> r == Report(h, 0, Some(Rejected(NameNotString)))
    ensures r.attempted <= CreateLength
    ensures r.error.None? ==> r.attempted == CreateLength && rec.name.StringValue? && DecodePort(rec.port).Ok?
    ensures r.attempted > 0 ==> rec.name.StringValue? && DecodePort(rec.port).Ok? && r.error != Some(Rejected(NameNotString))
    ensures r.error.Some? && r.error.value.StepFailed? ==> 0 < r.attempted && r.error.value.step == CreatePlan(rec.name.s, DecodePort(rec.port).value, rec)[r.attempted - 1]
    ensures r.host.storage == h.storage
  {
    match DecodePort(rec.port)
    case Err(e) => Report(h, 0, Some(Rejected(BadPort(e))))
    case Ok(port) =>
      if !rec.name.StringValue? then Report(h, 0, Some(Rejected(NameNotString)))
      else RunFrom(CreatePlan(rec.name.s, port, rec), 0, h, faults)
  }

  /** A record the create hook accepts and whose id and icon are strings. */
  predicate WellTyped(rec: Record) {
    DecodePort(rec.port).Ok? && rec.name.StringValue? && rec.id.StringValue? && rec.icon.StringValue?
  }

  /**
    A failed manifest update never stops the create hook: no run fails at the
    PatchManifest step.
   */
  lemma ManifestErrorSwallowed(rec: Record, h: Host, faults: set<Step>)
    ensures var r := Create(rec, h, faults);
      r.error.Some? && r.error.value.StepFailed? ==> !r.error.value.step.PatchManifest?
  {
    if DecodePort(rec.port).Ok? && rec.name.StringValue? {
      RunFailure(CreatePlan(rec.name.s, DecodePort(rec.port).value, rec), 0, h, faults);
    }
  }

  /**
    A failed create keeps the effects of every step before the failing one:
    its host is the one the successful prefix of the plan produced.
   */
  lemma CreateKeepsPartialWork(rec: Record, h: Host, faults: set<Step>)
    requires DecodePort(rec.port).Ok? && rec.name.StringValue?
    ensures var r := Create(rec, h, faults);
      var plan := CreatePlan(rec.name.s, DecodePort(rec.port).value, rec);
      r.error.Some? ==>
        && 0 < r.attempted <= CreateLength
        && RunFrom(plan[..r.attempted - 1], 0, h, faults).error.None?
        && RunFrom(plan[..r.attempted - 1], 0, h, faults).host == r.host
  {
    NoRollback(CreatePlan(rec.name.s, DecodePort(rec.port).value, rec), 0, h, faults);
  }

  /**
    The id and icon fields are checked only after the template was copied:
    a record whose id is not a string fails at that check and leaves the new
    instance directory behind.
   */
  lemma IdCheckedAfterCopy(rec: Record, h: Host, faults: set<Step>)
    requires DecodePort(rec.port).Ok? && rec.name.StringValue? && !rec.id.StringValue?
    requires TemplateName in h.caskers && CopyTemplate(rec.name.s) !in faults
    ensures var r := Create(rec, h, faults);
      && r.error == Some(StepFailed(RequireString("id", rec.id), NotAString))
      && r.attempted == 3
      && rec.name.s in r.host.caskers
  {
    var name, port := rec.name.s, DecodePort(rec.port).value;
    var plan := CreatePlan(name, port, rec);
    var h1 := Apply(CopyTemplate(name), h, faults).value;
    assert name in h1.caskers;
    assert RunFrom(plan, 0, h, faults) == RunFrom(plan, 1, h1, faults);
    var h2 := Apply(PatchManifest(name), h1, faults).value;
    assert name in h2.caskers;
    assert RunFrom(plan, 1, h1, faults) == RunFrom(plan, 2, h2, faults);
    assert RunFrom(plan, 2, h2, faults) == Report(h2, 3, Some(StepFailed(plan[2], NotAString)));
  }

  /** The host after a create that ran to the end, relative to the host before it. */
  predicate Provisioned(h0: Host, h1: Host, name: string, port: int) {
    && name in h1.caskers
    && h1.caskers == h0.caskers[name := h1.caskers[name]]
    && Lookup(h1.caskers[name], IconFile(Icon192)) == Some(Image(Png, 192, 192))
    && Lookup(h1.caskers[name], IconFile(Icon512)) == Some(Image(Png, 512, 512))
    && h1.storage == h0.storage
    && h1.system == h0.system[UnitPath(name) := UnitFile(name, port)][RoutePath(name) := RouteFile(name, port)]
    && h1.enabled == h0.enabled + {ServiceName(name)}
    && h1.running == h0.running + {ServiceName(name)} + {ProxyUnit}
    && h1.nginx == Loaded(h1.system)
    && h1.decoders == h0.decoders
  }

  /** The instance is up: unit installed, enabled and running, and its route is what nginx serves. */
  predicate Active(h: Host, name: string, port: int) {
    && name in h.caskers
    && Lookup(h.system, UnitPath(name)) == Some(UnitFile(name, port))
    && ServiceName(name) in h.enabled
    && ServiceName(name) in h.running
    && Lookup(h.nginx, RoutePath(name)) == Some(RouteFile(name, port))
  }

  lemma ProvisionedIsActive(h0: Host, h1: Host, name: string, port: int)
    requires Provisioned(h0, h1, name, port)
    ensures Active(h1, name, port)
  {
    UnitAndRouteApart(name, name);
  }

  /**
    A create that returns no error leaves the instance provisioned and
    active: the icons resized, the unit file and nginx fragment written with
    the decoded port, the unit enabled and started, nginx restarted on the
    new fragment. Nothing else on the host changed.
   */
  lemma CreateSuccessProvisions(rec: Record, h: Host, faults: set<Step>)
    requires DecodePort(rec.port).Ok? && rec.name.StringValue?
    ensures var r := Create(rec, h, faults);
      r.error.None? ==>
        && Provisioned(h, r.host, rec.name.s, DecodePort(rec.port).value)
        && Active(r.host, rec.name.s, DecodePort(rec.port).value)
  {
    var name, port := rec.name.s, DecodePort(rec.port).value;
    var plan := CreatePlan(name, port, rec);
    var r := Create(rec, h, faults);
    if r.error.None? {
      UnitAndRouteApart(name, name);
      var hs := SuccessHosts(plan, h, faults);
      assert r.host == hs[13];
      CreateSuccessSteps(plan, hs, name, port, rec, faults);
      ProvisionedIsActive(h, r.host, name, port);
    }
  }

  /** The effect of the directory part of a create (template, manifest, checks, icons) that succeeded. */
  lemma DirectoryStepsSucceed(hs: seq<Host>, name: string, source: string, rec: Record, faults: set<Step>)
    requires |hs| == 9
    requires Apply(CopyTemplate(name), hs[0], faults) == Ok(hs[1])
    requires Apply(PatchManifest(name), hs[1], faults) == Ok(hs[2])
    requires Apply(RequireString("id", rec.id), hs[2], faults) == Ok(hs[3])
    requires Apply(RequireString("icon", rec.icon), hs[3], faults) == Ok(hs[4])
    requires Apply(CopyIcon(source, name, Icon192), hs[4], faults) == Ok(hs[5])
    requires Apply(ResizeIcon(name, Icon192), hs[5], faults) == Ok(hs[6])
    requires Apply(CopyIcon(source, name, Icon512), hs[6], faults) == Ok(hs[7])
    requires Apply(ResizeIcon(name, Icon512), hs[7], faults) == Ok(hs[8])
    ensures name in hs[8].caskers && hs[8].caskers == hs[0].caskers[name := hs[8].caskers[name]]
    ensures Lookup(hs[8].caskers[name], IconFile(Icon192)) == Some(Image(Png, 192, 192))
    ensures Lookup(hs[8].caskers[name], IconFile(Icon512)) == Some(Image(Png, 512, 512))
    ensures hs[8] == hs[0].(caskers := hs[8].caskers)
  {
    InstanceFilesDistinct();
    DirectoryStepEffect(CopyTemplate(name), name, hs[0], faults);
    DirectoryStepEffect(PatchManifest(name), name, hs[1], faults);
    assert hs[4] == hs[2];
    DirectoryStepEffect(CopyIcon(source, name, Icon192), name, hs[4], faults);
    DirectoryStepEffect(ResizeIcon(name, Icon192), name, hs[5], faults);
    DirectoryStepEffect(CopyIcon(source, name, Icon512), name, hs[6], faults);
    DirectoryStepEffect(ResizeIcon(name, Icon512), name, hs[7], faults);
  }

  /** The effect of the service part of a create (unit, systemctl, nginx) that succeeded. */
  lemma ServiceStepsSucceed(hs: seq<Host>, name: string, port: int, faults: set<Step>)
    requires |hs| == 6
    requires Apply(WriteFile(UnitPath(name), UnitFile(name, port)), hs[0], faults) == Ok(hs[1])
    requires Apply(Systemctl(Enable, ServiceName(name)), hs[1], faults) == Ok(hs[2])
    requires Apply(Systemctl(Start, ServiceName(name)), hs[2], faults) == Ok(hs[3])
    requires Apply(WriteFile(RoutePath(name), RouteFile(name, port)), hs[3], faults) == Ok(hs[4])
    requires Apply(Systemctl(Restart, ProxyUnit), hs[4], faults) == Ok(hs[5])
    ensures hs[5].caskers == hs[0].caskers && hs[5].storage == hs[0].storage
    ensures hs[5].system == hs[0].system[UnitPath(name) := UnitFile(name, port)][RoutePath(name) := RouteFile(name, port)]
    ensures hs[5].enabled == hs[0].enabled + {ServiceName(name)}
    ensures hs[5].running == hs[0].running + {ServiceName(name)} + {ProxyUnit}
    ensures hs[5].nginx == Loaded(hs[5].system)
  {
  }

  /** The effect of each step of a create that ran to the end. */
  lemma CreateSuccessSteps(plan: seq<Step>, hs: seq<Host>, name: string, port: int, rec: Record, faults: set<Step>)
    requires plan == CreatePlan(name, port, rec) && |hs| == 14
    requires forall k :: 0 <= k < 13 ==> Apply(plan[k], hs[k], faults) == Ok(hs[k + 1])
    ensures Provisioned(hs[0], hs[13], name, port)
  {
    var source := IconSource(rec);
    assert Apply(plan[0], hs[0], faults) == Ok(hs[1]);
    assert Apply(plan[1], hs[1], faults) == Ok(hs[2]);
    assert Apply(plan[2], hs[2], faults) == Ok(hs[3]);
    assert Apply(plan[3], hs[3], faults) == Ok(hs[4]);
    assert Apply(plan[4], hs[4], faults) == Ok(hs[5]);
    assert Apply(plan[5], hs[5], faults) == Ok(hs[6]);
    assert Apply(plan[6], hs[6], faults) == Ok(hs[7]);
    assert Apply(plan[7], hs[7], faults) == Ok(hs[8]);
    DirectoryStepsSucceed(hs[..9], name, source, rec, faults);
    assert Apply(plan[8], hs[8], faults) == Ok(hs[9]);
    assert Apply(plan[9], hs[9], faults) == Ok(hs[10]);
    assert Apply(plan[10], hs[10], faults) == Ok(hs[11]);
    assert Apply(plan[11], hs[11], faults) == Ok(hs[12]);
    assert Apply(plan[12], hs[12], faults) == Ok(hs[13]);
    ServiceStepsSucceed(hs[8..], name, port, faults);
  }

  /** The uploaded icon of the record is an image in a format a registered decoder reads. */
  predicate DecodableUpload(rec: Record, h: Host) {
    IconSource(rec) in h.storage && h.storage[IconSource(rec)].Image? && Decodes(h, h.storage[IconSource(rec)].format)
  }

  /** The template directory exists and has the pb_public directory the icons are copied into. */
  predicate TemplateReady(h: Host) {
    TemplateName in h.caskers && HasPublicDir(h.caskers[TemplateName])
  }

  /** The manifest update on a directory when the write goes through: patched if the manifest unmarshals, unchanged otherwise. */
  function PatchTree(tree: Tree, name: string): Tree {
    if ManifestFile in tree && tree[ManifestFile].Json? then tree[ManifestFile := Json(Patch(tree[ManifestFile].manifest, name))]
    else tree
  }

  /** The instance directory a create is meant to leave: the clone with its manifest patched and both icons resized. */
  function Instance(cloned: Tree, name: string): Tree {
    PatchTree(cloned, name)[IconFile(Icon192) := Image(Png, 192, 192)][IconFile(Icon512) := Image(Png, 512, 512)]
  }

  /**
    With the template and its pb_public directory present, a decodable icon
    uploaded and an environment that refuses nothing, the create hook
    succeeds, whether or not an instance of that name already exists. The
    instance directory is then the clone with the manifest patched and both
    icons resized: every other template file is there unchanged, and if the
    template's manifest unmarshals, the new manifest carries the tenant's
    identity and the template's other fields.
   */
  lemma CreateSucceedsWithoutFaults(rec: Record, h: Host)
    requires WellTyped(rec) && TemplateReady(h) && DecodableUpload(rec, h)
    ensures var r := Create(rec, h, {});
      && r.error.None?
      && Provisioned(h, r.host, rec.name.s, DecodePort(rec.port).value)
      && Active(r.host, rec.name.s, DecodePort(rec.port).value)
    ensures Create(rec, h, {}).host.caskers[rec.name.s] == Instance(Cloned(h, rec.name.s), rec.name.s)
    ensures rec.name.s !in h.caskers ==>
      Create(rec, h, {}).host.caskers[rec.name.s] == Instance(h.caskers[TemplateName], rec.name.s)
    ensures var template := h.caskers[TemplateName];
      forall f :: f in template && f != ManifestFile && f != IconFile(Icon192) && f != IconFile(Icon512) ==>
        Lookup(Create(rec, h, {}).host.caskers[rec.name.s], f) == Some(template[f])
    ensures ManifestFile in h.caskers[TemplateName] && h.caskers[TemplateName][ManifestFile].Json? ==>
      var r := Create(rec, h, {});
      var m := h.caskers[TemplateName][ManifestFile].manifest;
      Lookup(r.host.caskers[rec.name.s], ManifestFile) == Some(Json(Patch(m, rec.name.s)))
  {
    var name, port := rec.name.s, DecodePort(rec.port).value;
    var none: set<Step> := {};
    CreateRunsWithoutFaults(rec, h);
    CreateSuccessProvisions(rec, h, none);
    ProvisionedIsActive(h, Create(rec, h, none).host, name, port);
    InstanceFilesDistinct();
  }

  /** The no-fault create run, phase by phase: it succeeds and leaves the instance directory `Instance` describes. */
  lemma CreateRunsWithoutFaults(rec: Record, h: Host)
    requires WellTyped(rec) && TemplateReady(h) && DecodableUpload(rec, h)
    ensures Create(rec, h, {}).error.None?
    ensures rec.name.s in Create(rec, h, {}).host.caskers
    ensures Create(rec, h, {}).host.caskers[rec.name.s] == Instance(Cloned(h, rec.name.s), rec.name.s)
  {
    var name, port := rec.name.s, DecodePort(rec.port).value;
    var plan := CreatePlan(name, port, rec);
    var h4 := TemplatePhase(plan, name, port, rec, h);
    var h8 := IconPhase(plan, name, port, rec, h4);
    var h13 := ServicePhase(plan, name, port, rec, h8);
  }

  /** Without faults, copying the template, patching its manifest and passing the field checks succeed. */
  lemma TemplatePhase(plan: seq<Step>, name: string, port: int, rec: Record, h: Host) returns (h4: Host)
    requires plan == CreatePlan(name, port, rec)
    requires rec.id.StringValue? && rec.icon.StringValue? && TemplateReady(h)
    ensures RunFrom(plan, 0, h, {}) == RunFrom(plan, 4, h4, {})
    ensures h4.storage == h.storage && h4.decoders == h.decoders && name in h4.caskers
    ensures h4.caskers[name] == PatchTree(Cloned(h, name), name)
    ensures HasPublicDir(h4.caskers[name])
  {
    var none: set<Step> := {};
    var h1, h2 := CloneSteps(name, h);
    h4 := h2;
    assert plan[0] == CopyTemplate(name) && plan[1] == PatchManifest(name);
    assert plan[2] == RequireString("id", rec.id) && plan[3] == RequireString("icon", rec.icon);
    RunStep(plan, 0, h, h1, none);
    RunStep(plan, 1, h1, h2, none);
    RunStep(plan, 2, h2, h2, none);
    RunStep(plan, 3, h2, h2, none);
  }

  /** The template copy and the manifest update, written out, each succeed without faults. */
  lemma CloneSteps(name: string, h: Host) returns (h1: Host, h2: Host)
    requires TemplateReady(h)
    ensures Apply(CopyTemplate(name), h, {}) == Ok(h1)
    ensures Apply(PatchManifest(name), h1, {}) == Ok(h2)
    ensures h2.storage == h.storage && h2.decoders == h.decoders && name in h2.caskers
    ensures h2.caskers[name] == PatchTree(Cloned(h, name), name)
    ensures HasPublicDir(h2.caskers[name])
  {
    var none: set<Step> := {};
    h1 := Apply(CopyTemplate(name), h, none).value;
    DirectoryStepEffect(CopyTemplate(name), name, h, none);
    h2 := Apply(PatchManifest(name), h1, none).value;
    DirectoryStepEffect(PatchManifest(name), name, h1, none);
    var f :| f in h.caskers[TemplateName] && PublicDir <= f;
    assert f in h1.caskers[name] && f in h2.caskers[name];
  }

  /** Without faults, a decodable upload is copied and resized into both icon files, and nothing else in the directory changes. */
  lemma IconPhase(plan: seq<Step>, name: string, port: int, rec: Record, h: Host) returns (h8: Host)
    requires plan == CreatePlan(name, port, rec)
    requires name in h.caskers && HasPublicDir(h.caskers[name]) && DecodableUpload(rec, h)
    ensures RunFrom(plan, 4, h, {}) == RunFrom(plan, 8, h8, {})
    ensures h8.storage == h.storage && name in h8.caskers
    ensures h8.caskers[name] == h.caskers[name][IconFile(Icon192) := Image(Png, 192, 192)][IconFile(Icon512) := Image(Png, 512, 512)]
  {
    var hs := IconSteps(name, IconSource(rec), h);
    h8 := hs[4];
    forall k | 4 <= k < 8 ensures Apply(plan[k], hs[k - 4], {}) == Ok(hs[k - 4 + 1]) {
      if k == 4 { } else if k == 5 { } else if k == 6 { } else { }
    }
    RunSegment(plan, 4, hs, {});
  }

  /** The four icon steps, written out, each succeed without faults. */
  lemma IconSteps(name: string, source: string, h: Host) returns (hs: seq<Host>)
    requires name in h.caskers && HasPublicDir(h.caskers[name])
    requires source in h.storage && h.storage[source].Image? && Decodes(h, h.storage[source].format)
    ensures |hs| == 5 && hs[0] == h && hs[4].storage == h.storage && name in hs[4].caskers
    ensures Apply(CopyIcon(source, name, Icon192), hs[0], {}) == Ok(hs[1])
    ensures Apply(ResizeIcon(name, Icon192), hs[1], {}) == Ok(hs[2])
    ensures Apply(CopyIcon(source, name, Icon512), hs[2], {}) == Ok(hs[3])
    ensures Apply(ResizeIcon(name, Icon512), hs[3], {}) == Ok(hs[4])
    ensures hs[4].caskers[name] == h.caskers[name][IconFile(Icon192) := Image(Png, 192, 192)][IconFile(Icon512) := Image(Png, 512, 512)]
  {
    var none: set<Step> := {};
    var dir := h.caskers[name];
    var f :| f in dir && PublicDir <= f;
    var h1 := Apply(CopyIcon(source, name, Icon192), h, none).value;
    DirectoryStepEffect(CopyIcon(source, name, Icon192), name, h, none);
    var h2 := Apply(ResizeIcon(name, Icon192), h1, none).value;
    DirectoryStepEffect(ResizeIcon(name, Icon192), name, h1, none);
    assert f in h2.caskers[name];
    var h3 := Apply(CopyIcon(source, name, Icon512), h2, none).value;
    DirectoryStepEffect(CopyIcon(source, name, Icon512), name, h2, none);
    var h4 := Apply(ResizeIcon(name, Icon512), h3, none).value;
    DirectoryStepEffect(ResizeIcon(name, Icon512), name, h3, none);
    hs := [h, h1, h2, h3, h4];
    var png192, png512 := Image(Png, 192, 192), Image(Png, 512, 512);
    assert h4.caskers[name] == dir[IconFile(Icon192) := png192][IconFile(Icon512) := png512];
  }

  /** Without faults, the unit, its state and the nginx fragment are all put in place. */
  lemma ServicePhase(plan: seq<Step>, name: string, port: int, rec: Record, h: Host) returns (h13: Host)
    requires plan == CreatePlan(name, port, rec)
    ensures RunFrom(plan, 8, h, {}) == Report(h13, 13, None)
    ensures h13.caskers == h.caskers
  {
    UnitPathIsUnitFile(name);
    var none: set<Step> := {};
    var h9 := Apply(plan[8], h, none).value;
    var h10 := Apply(plan[9], h9, none).value;
    var h11 := Apply(plan[10], h10, none).value;
    var h12 := Apply(plan[11], h11, none).value;
    h13 := Apply(plan[12], h12, none).value;
    RunSegment(plan, 8, [h, h9, h10, h11, h12, h13], none);
  }

  /** Every step of a create for `name` concerns only `name`. */
  lemma CreatePlanConcernsOnlyItsName(name: string, port: int, rec: Record, a: string)
    requires a != name && a != "nginx"
    ensures forall j :: 0 <= j < |CreatePlan(name, port, rec)| ==> !Concerns(CreatePlan(name, port, rec)[j], a)
  {
    var plan := CreatePlan(name, port, rec);
    ServiceIsProxyOnlyForNginx(a);
    UnitAndRouteApart(name, a);
    UnitAndRouteApart(a, name);
    forall j | 0 <= j < |plan| ensures !Concerns(plan[j], a) {
      if j == 8 && Concerns(plan[j], a) { UnitPathInjective(name, a); }
      if j == 9 && Concerns(plan[j], a) { ServiceNameInjective(name, a); }
      if j == 10 && Concerns(plan[j], a) { ServiceNameInjective(name, a); }
      if j == 11 && Concerns(plan[j], a) { RoutePathInjective(name, a); }
    }
  }

  /**
    Tenants are isolated: creating one casker, whatever happens, leaves the
    directory, unit file, nginx fragment and unit state of every other
    casker as they were. A casker named nginx is left aside: its unit is
    nginx.service, which every create restarts.
   */
  lemma CreateKeepsOtherTenants(rec: Record, h: Host, faults: set<Step>, a: string)
    requires rec.name.StringValue? ==> a != rec.name.s
    requires a != "nginx"
    ensures SameArtifacts(h, Create(rec, h, faults).host, a)
  {
    if DecodePort(rec.port).Ok? && rec.name.StringValue? {
      var plan := CreatePlan(rec.name.s, DecodePort(rec.port).value, rec);
      CreatePlanConcernsOnlyItsName(rec.name.s, DecodePort(rec.port).value, rec, a);
      RunKeepsOthers(plan, 0, h, faults, a);
    }
  }

  /** The steps RemoveServiceAndConfig makes: unit file, nginx fragment, nginx reload. */
  function RemoveServiceAndConfig(name: string): seq<Step> {
    [ RemoveFile(UnitPath(name)),
      RemoveFile(RoutePath(name)),
      Systemctl(Reload, ProxyUnit) ]
  }

  /**
    The steps of the delete hook as main.go writes them: the directory, the
    unit's boot and run state, the nginx fragment, then RemoveServiceAndConfig,
    which removes the same nginx fragment a second time.
   */
  function DeletePlanAsWritten(name: string): seq<Step> {
    [ RemoveDir(name),
      Systemctl(Disable, ServiceName(name)),
      Systemctl(Stop, ServiceName(name)),
      RemoveFile(RoutePath(name)) ]
    + RemoveServiceAndConfig(name)
  }

  /** The delete plan as written, step by step. */
  lemma AsWrittenPlanSteps(name: string)
    ensures var plan := DeletePlanAsWritten(name);
      && |plan| == 7
      && plan[0] == RemoveDir(name)
      && plan[1] == Systemctl(Disable, ServiceName(name))
      && plan[2] == Systemctl(Stop, ServiceName(name))
      && plan[3] == RemoveFile(RoutePath(name))
      && plan[4] == RemoveFile(UnitPath(name))
      && plan[5] == RemoveFile(RoutePath(name))
      && plan[6] == Systemctl(Reload, ProxyUnit)
  {
  }

  /** The delete hook as written: require a string name, then run the plan. */
  function DeleteAsWritten(rec: Record, h: Host, faults: set<Step>): (r: Report)
    ensures !rec.name.StringValue? ==> r == Report(h, 0, Some(Rejected(NameNotString)))
    ensures r.host.storage == h.storage
  {
    if !rec.name.StringValue? then Report(h, 0, Some(Rejected(NameNotString)))
    else RunFrom(DeletePlanAsWritten(rec.name.s), 0, h, faults)
  }

  /**
    The delete hook as written never succeeds. Either an earlier step fails,
    or the first removal of the nginx fragment succeeds and the second one,
    in RemoveServiceAndConfig, finds nothing to remove. The nginx reload that
    follows it is never attempted, so nginx keeps serving the removed route.
   */
  lemma DeleteAsWrittenAlwaysFails(rec: Record, h: Host, faults: set<Step>)
    ensures var r := DeleteAsWritten(rec, h, faults);
      && r.error.Some?
      && r.attempted <= 6
      && r.host.nginx == h.nginx
    ensures rec.name.StringValue? ==>
      var r := DeleteAsWritten(rec, h, faults);
      var name := rec.name.s;
      r.attempted == 6 ==>
        && r.error == Some(StepFailed(RemoveFile(RoutePath(name)), NotFound))
        && name !in r.host.caskers
        && UnitPath(name) !in r.host.system
        && RoutePath(name) !in r.host.system
  {
    if rec.name.StringValue? {
      var plan := DeletePlanAsWritten(rec.name.s);
      AsWrittenRunFails(plan, h, faults);
      AsWrittenRunKeepsNginx(plan, h, faults);
      if RunFrom(plan, 0, h, faults).attempted == 6 {
        RouteGoneBeforeSecondRemoval(plan, h, faults);
      }
    }
  }

  /** A run of the delete as written fails, at the latest at its sixth step. */
  lemma AsWrittenRunFails(plan: seq<Step>, h: Host, faults: set<Step>)
    requires exists name :: plan == DeletePlanAsWritten(name)
    ensures RunFrom(plan, 0, h, faults).error.Some? && RunFrom(plan, 0, h, faults).attempted <= 6
  {
    if RunFrom(plan, 0, h, faults).attempted > 5 {
      RouteGoneBeforeSecondRemoval(plan, h, faults);
    }
  }

  /** A run of the delete as written that fails before the reload leaves nginx as it was. */
  lemma AsWrittenRunKeepsNginx(plan: seq<Step>, h: Host, faults: set<Step>)
    requires exists name :: plan == DeletePlanAsWritten(name)
    requires RunFrom(plan, 0, h, faults).error.Some? && RunFrom(plan, 0, h, faults).attempted <= 6
    ensures RunFrom(plan, 0, h, faults).host.nginx == h.nginx
  {
    var name :| plan == DeletePlanAsWritten(name);
    AsWrittenPlanSteps(name);
    var r := RunFrom(plan, 0, h, faults);
    NoRollback(plan, 0, h, faults);
    var prefix := plan[..r.attempted - 1];
    assert forall j :: 0 <= j < |prefix| ==> !TouchesNginx(prefix[j]);
    RunKeepsNginx(prefix, 0, h, faults);
  }

  /** The directory and unit steps of the delete as written, once accepted, leave the files alone. */
  lemma AsWrittenUnitSteps(plan: seq<Step>, name: string, h: Host, faults: set<Step>) returns (h3: Host)
    requires plan == DeletePlanAsWritten(name) && RunFrom(plan, 0, h, faults).attempted > 3
    ensures RunFrom(plan, 0, h, faults) == RunFrom(plan, 3, h3, faults)
    ensures name !in h3.caskers && h3.system == h.system
  {
    AsWrittenPlanSteps(name);
    var h1 := Apply(plan[0], h, faults).value;
    assert RunFrom(plan, 0, h, faults) == RunFrom(plan, 1, h1, faults);
    var h2 := Apply(plan[1], h1, faults).value;
    assert RunFrom(plan, 1, h1, faults) == RunFrom(plan, 2, h2, faults);
    h3 := Apply(plan[2], h2, faults).value;
    assert RunFrom(plan, 2, h2, faults) == RunFrom(plan, 3, h3, faults);
  }

  /** A delete run that gets past its fifth step finds the nginx fragment already gone. */
  lemma RouteGoneBeforeSecondRemoval(plan: seq<Step>, h: Host, faults: set<Step>)
    requires exists name :: plan == DeletePlanAsWritten(name)
    requires RunFrom(plan, 0, h, faults).attempted > 5
    ensures RunFrom(plan, 0, h, faults).attempted == 6
    ensures RunFrom(plan, 0, h, faults).error == Some(StepFailed(plan[5], NotFound))
    ensures plan[0].name !in RunFrom(plan, 0, h, faults).host.caskers
    ensures plan[4].path !in RunFrom(plan, 0, h, faults).host.system
    ensures plan[5].path !in RunFrom(plan, 0, h, faults).host.system
  {
    var name :| plan == DeletePlanAsWritten(name);
    AsWrittenPlanSteps(name);
    UnitAndRouteApart(name, name);
    var h3 := AsWrittenUnitSteps(plan, name, h, faults);
    var h4 := Apply(plan[3], h3, faults).value;
    assert RunFrom(plan, 3, h3, faults) == RunFrom(plan, 4, h4, faults);
    var h5 := Apply(plan[4], h4, faults).value;
    assert RunFrom(plan, 4, h4, faults) == RunFrom(plan, 5, h5, faults);
    assert name !in h5.caskers;
    assert RoutePath(name) !in h5.system && UnitPath(name) !in h5.system;
    assert Apply(plan[5], h5, faults) == Err(NotFound);
  }

  /**
    The steps of the delete hook as main.go evidently intends them: the
    directory, the unit's boot and run state, then RemoveServiceAndConfig,
    which removes the unit file and the nginx fragment once each and reloads
    nginx.
   */
  function DeletePlan(name: string): seq<Step> {
    [ RemoveDir(name),
      Systemctl(Disable, ServiceName(name)),
      Systemctl(Stop, ServiceName(name)) ]
    + RemoveServiceAndConfig(name)
  }

  /** The corrected delete plan, step by step. */
  lemma DeletePlanSteps(name: string)
    ensures var plan := DeletePlan(name);
      && |plan| == 6
      && plan[0] == RemoveDir(name)
      && plan[1] == Systemctl(Disable, ServiceName(name))
      && plan[2] == Systemctl(Stop, ServiceName(name))
      && plan[3] == RemoveFile(UnitPath(name))
      && plan[4] == RemoveFile(RoutePath(name))
      && plan[5] == Systemctl(Reload, ProxyUnit)
  {
  }

  const DeleteLength: nat := 6

  /** The delete hook, with the nginx fragment removed once. */
  function Delete(rec: Record, h: Host, faults: set<Step>): (r: Report)
    ensures !rec.name.StringValue? ==> r == Report(h, 0, Some(Rejected(NameNotString)))
    ensures r.attempted <= DeleteLength
    ensures r.error.None? ==> r.attempted == DeleteLength && rec.name.StringValue?
    ensures r.error.Some? && r.error.value.StepFailed? ==>
      rec.name.StringValue? && 0 < r.attempted && r.error.value.step == DeletePlan(rec.name.s)[r.attempted - 1]
    ensures r.host.storage == h.storage
  {
    if !rec.name.StringValue? then Report(h, 0, Some(Rejected(NameNotString)))
    else RunFrom(DeletePlan(rec.name.s), 0, h, faults)
  }

  /** The host with every artifact of instance `name` gone and nginx reloaded. */
  function Cleared(h: Host, name: string): Host {
    var system := h.system - {UnitPath(name), RoutePath(name)};
    h.(caskers := h.caskers - {name},
       system := system,
       enabled := h.enabled - {ServiceName(name)},
       running := h.running - {ServiceName(name)},
       nginx := Loaded(system))
  }

  /** No artifact of instance `name` exists on the host. */
  predicate Fresh(h: Host, name: string) {
    && name !in h.caskers
    && UnitPath(name) !in h.system
    && RoutePath(name) !in h.system
    && ServiceName(name) !in h.enabled
    && ServiceName(name) !in h.running
  }

  /** The six delete steps, each accepted, clear the instance; both files had to be there. */
  lemma DeleteStepsSucceed(hs: seq<Host>, name: string, faults: set<Step>)
    requires |hs| == 7
    requires Apply(RemoveDir(name), hs[0], faults) == Ok(hs[1])
    requires Apply(Systemctl(Disable, ServiceName(name)), hs[1], faults) == Ok(hs[2])
    requires Apply(Systemctl(Stop, ServiceName(name)), hs[2], faults) == Ok(hs[3])
    requires Apply(RemoveFile(UnitPath(name)), hs[3], faults) == Ok(hs[4])
    requires Apply(RemoveFile(RoutePath(name)), hs[4], faults) == Ok(hs[5])
    requires Apply(Systemctl(Reload, ProxyUnit), hs[5], faults) == Ok(hs[6])
    ensures UnitPath(name) in hs[0].system && RoutePath(name) in hs[0].system
    ensures ProxyUnit in hs[0].running - {ServiceName(name)}
    ensures hs[6] == Cleared(hs[0], name)
  {
    assert hs[1] == hs[0].(caskers := hs[0].caskers - {name}) by {
      if name !in hs[0].caskers {
        assert hs[0].caskers - {name} == hs[0].caskers;
      }
    }
    assert hs[5].system == hs[0].system - {UnitPath(name), RoutePath(name)};
  }

  /** A delete that returns no error found both files and cleared the instance. */
  lemma DeleteSuccessClears(rec: Record, h: Host, faults: set<Step>)
    requires rec.name.StringValue?
    ensures var r := Delete(rec, h, faults);
      r.error.None? ==>
        && UnitPath(rec.name.s) in h.system && RoutePath(rec.name.s) in h.system
        && ProxyUnit in h.running - {ServiceName(rec.name.s)}
        && r.host == Cleared(h, rec.name.s)
  {
    var r := Delete(rec, h, faults);
    if r.error.None? {
      var plan := DeletePlan(rec.name.s);
      DeletePlanSteps(rec.name.s);
      var hs := SuccessHosts(plan, h, faults);
      DeleteStepsSucceed(hs, rec.name.s, faults);
    }
  }

  /**
    In an environment that refuses nothing, a delete succeeds exactly when
    the unit file and the nginx fragment are both there and nginx is still
    running once the tenant's unit is stopped. Without the unit file, systemd
    does not know the unit and the disable fails (for a tenant named nginx,
    whose unit is nginx's own, the unit file's removal fails); without the
    fragment, its removal fails; with nginx stopped, the reload fails.
   */
  lemma DeleteWithoutFaults(rec: Record, h: Host)
    requires rec.name.StringValue?
    ensures var name := rec.name.s;
      Delete(rec, h, {}).error.None? <==>
        UnitPath(name) in h.system && RoutePath(name) in h.system && ProxyUnit in h.running - {ServiceName(name)}
    ensures var name := rec.name.s;
      UnitPath(name) !in h.system && ServiceName(name) != ProxyUnit ==>
        Delete(rec, h, {}).error == Some(StepFailed(Systemctl(Disable, ServiceName(name)), NotFound))
    ensures var name := rec.name.s;
      UnitPath(name) !in h.system && ServiceName(name) == ProxyUnit ==>
        Delete(rec, h, {}).error == Some(StepFailed(RemoveFile(UnitPath(name)), NotFound))
    ensures var name := rec.name.s;
      UnitPath(name) in h.system && RoutePath(name) !in h.system ==>
        Delete(rec, h, {}).error == Some(StepFailed(RemoveFile(RoutePath(name)), NotFound))
    ensures var name := rec.name.s;
      UnitPath(name) in h.system && RoutePath(name) in h.system && ProxyUnit !in h.running - {ServiceName(name)} ==>
        Delete(rec, h, {}).error == Some(StepFailed(Systemctl(Reload, ProxyUnit), NotActive))
  {
    var name := rec.name.s;
    var plan := DeletePlan(name);
    var none: set<Step> := {};
    DeletePlanSteps(name);
    UnitAndRouteApart(name, name);
    UnitPathIsUnitFile(name);
    var h1 := Apply(RemoveDir(name), h, none).value;
    assert h1.system == h.system;
    assert RunFrom(plan, 0, h, none) == RunFrom(plan, 1, h1, none);
    if UnitPath(name) in h.system {
      DeleteFromDisable(plan, name, h1);
    } else if ServiceName(name) != ProxyUnit {
      assert Apply(plan[1], h1, none) == Err(NotFound);
    } else {
      var h2 := Apply(plan[1], h1, none).value;
      assert RunFrom(plan, 1, h1, none) == RunFrom(plan, 2, h2, none);
      var h3 := Apply(plan[2], h2, none).value;
      assert RunFrom(plan, 2, h2, none) == RunFrom(plan, 3, h3, none);
      assert h3.system == h.system;
      assert Apply(plan[3], h3, none) == Err(NotFound);
    }
  }

  /** The corrected delete without faults, from the disable on, with the unit file present. */
  lemma DeleteFromDisable(plan: seq<Step>, name: string, h: Host)
    requires plan == DeletePlan(name) && UnitPath(name) in h.system
    ensures RunFrom(plan, 1, h, {}).error.None? <==>
      RoutePath(name) in h.system && ProxyUnit in h.running - {ServiceName(name)}
    ensures RoutePath(name) !in h.system ==>
      RunFrom(plan, 1, h, {}).error == Some(StepFailed(RemoveFile(RoutePath(name)), NotFound))
    ensures RoutePath(name) in h.system && ProxyUnit !in h.running - {ServiceName(name)} ==>
      RunFrom(plan, 1, h, {}).error == Some(StepFailed(Systemctl(Reload, ProxyUnit), NotActive))
  {
    var none: set<Step> := {};
    DeletePlanSteps(name);
    UnitAndRouteApart(name, name);
    UnitPathIsUnitFile(name);
    var h2 := Apply(plan[1], h, none).value;
    assert RunFrom(plan, 1, h, none) == RunFrom(plan, 2, h2, none);
    var h3 := Apply(plan[2], h2, none).value;
    assert RunFrom(plan, 2, h2, none) == RunFrom(plan, 3, h3, none);
    assert h3.system == h.system && h3.running == h.running - {ServiceName(name)};
    var h4 := Apply(plan[3], h3, none).value;
    assert RunFrom(plan, 3, h3, none) == RunFrom(plan, 4, h4, none);
    assert RoutePath(name) in h4.system <==> RoutePath(name) in h.system;
    if RoutePath(name) in h.system {
      var h5 := Apply(plan[4], h4, none).value;
      assert RunFrom(plan, 4, h4, none) == RunFrom(plan, 5, h5, none);
      assert h5.running == h3.running;
      if ProxyUnit in h5.running {
        var h6 := Apply(plan[5], h5, none).value;
        assert RunFrom(plan, 5, h5, none) == RunFrom(plan, 6, h6, none);
      } else {
        assert Apply(plan[5], h5, none) == Err(NotActive);
      }
    }
  }

  /**
    Deleting an instance that a create provisioned on a host where it did not
    exist, with nginx running on the host's own fragments, gives back exactly
    the host before the create.
   */
  lemma DeleteUndoesCreate(rec: Record, h0: Host, h1: Host, port: int)
    requires rec.name.StringValue? && Provisioned(h0, h1, rec.name.s, port) && Fresh(h0, rec.name.s)
    requires ProxyUnit in h0.running && h0.nginx == Loaded(h0.system)
    ensures Delete(rec, h1, {}) == Report(h0, DeleteLength, None)
  {
    UnitAndRouteApart(rec.name.s, rec.name.s);
    DeleteWithoutFaults(rec, h1);
    DeleteSuccessClears(rec, h1, {});
    ClearedUndoesProvisioned(h0, h1, rec.name.s, port);
  }

  /** Clearing a freshly provisioned instance gives back the host before it was provisioned. */
  lemma ClearedUndoesProvisioned(h0: Host, h1: Host, name: string, port: int)
    requires Provisioned(h0, h1, name, port) && Fresh(h0, name)
    requires ProxyUnit in h0.running && h0.nginx == Loaded(h0.system)
    ensures Cleared(h1, name) == h0
  {
    var c := Cleared(h1, name);
    RemoveAddedKey(h0.caskers, name, h1.caskers[name]);
    RemoveAddedKeys(h0.system, UnitPath(name), UnitFile(name, port), RoutePath(name), RouteFile(name, port));
    assert c.enabled == h0.enabled;
    assert c.running == h0.running;
  }

  lemma RemoveAddedKey<K, V>(m: map<K, V>, k: K, v: V)
    requires k !in m
    ensures m[k := v] - {k} == m
  {
  }

  lemma RemoveAddedKeys<K, V>(m: map<K, V>, k1: K, v1: V, k2: K, v2: V)
    requires k1 !in m && k2 !in m
    ensures m[k1 := v1][k2 := v2] - {k1, k2} == m
  {
  }

  /**
    Create followed by delete is the identity on a host where the instance
    did not exist, provided the template with its pb_public directory and a
    decodable icon are there and the environment refuses nothing.
   */
  lemma CreateThenDeleteRestores(rec: Record, h: Host)
    requires WellTyped(rec) && TemplateReady(h) && DecodableUpload(rec, h)
    requires Fresh(h, rec.name.s) && ProxyUnit in h.running && h.nginx == Loaded(h.system)
    ensures Delete(rec, Create(rec, h, {}).host, {}) == Report(h, DeleteLength, None)
  {
    CreateSucceedsWithoutFaults(rec, h);
    DeleteUndoesCreate(rec, h, Create(rec, h, {}).host, DecodePort(rec.port).value);
  }

  /**
    Delete is not idempotent: once a delete has succeeded, deleting the same
    name again fails where it disables the unit, which systemd no longer knows.
   */
  lemma DeleteTwiceFails(rec: Record, h: Host, faults: set<Step>)
    requires rec.name.StringValue? && Delete(rec, h, faults).error.None?
    ensures Delete(rec, Delete(rec, h, faults).host, {}).error == Some(StepFailed(Systemctl(Disable, ServiceName(rec.name.s)), NotFound))
  {
    DeleteSuccessClears(rec, h, faults);
    DeleteWithoutFaults(rec, Delete(rec, h, faults).host);
  }

  /**
    On a freshly provisioned instance the delete hook as written removes the
    directory, the unit's state and both files, then fails; nginx was never
    reloaded and still serves the route whose fragment is gone.
   */
  lemma DeleteAsWrittenLeavesRouteServed(rec: Record, h0: Host, h1: Host, port: int)
    requires rec.name.StringValue? && Provisioned(h0, h1, rec.name.s, port)
    ensures var r := DeleteAsWritten(rec, h1, {});
      var name := rec.name.s;
      && r.attempted == 6
      && r.error == Some(StepFailed(RemoveFile(RoutePath(name)), NotFound))
      && name !in r.host.caskers
      && RoutePath(name) !in r.host.system
      && Lookup(r.host.nginx, RoutePath(name)) == Some(RouteFile(name, port))
  {
    ProvisionedIsActive(h0, h1, rec.name.s, port);
    UnitAndRouteApart(rec.name.s, rec.name.s);
    DeleteAsWrittenReachesSecondRemoval(rec, h1);
    DeleteAsWrittenAlwaysFails(rec, h1, {});
  }

  /** Without faults, with both files present, the delete as written gets as far as the second removal. */
  lemma DeleteAsWrittenReachesSecondRemoval(rec: Record, h: Host)
    requires rec.name.StringValue? && UnitPath(rec.name.s) in h.system && RoutePath(rec.name.s) in h.system
    ensures DeleteAsWritten(rec, h, {}).attempted == 6
  {
    var name := rec.name.s;
    var plan := DeletePlanAsWritten(name);
    var none: set<Step> := {};
    AsWrittenPlanSteps(name);
    UnitAndRouteApart(name, name);
    UnitPathIsUnitFile(name);
    var g1 := Apply(plan[0], h, none).value;
    assert RunFrom(plan, 0, h, none) == RunFrom(plan, 1, g1, none);
    var g2 := Apply(plan[1], g1, none).value;
    assert RunFrom(plan, 1, g1, none) == RunFrom(plan, 2, g2, none);
    var g3 := Apply(plan[2], g2, none).value;
    assert RunFrom(plan, 2, g2, none) == RunFrom(plan, 3, g3, none);
    var g4 := Apply(plan[3], g3, none).value;
    assert RunFrom(plan, 3, g3, none) == RunFrom(plan, 4, g4, none);
    var g5 := Apply(plan[4], g4, none).value;
    assert RunFrom(plan, 4, g4, none) == RunFrom(plan, 5, g5, none);
    RouteGoneBeforeSecondRemoval(plan, h, none);
  }

  /** Every step of a delete of `name`, as written or corrected, concerns only `name`. */
  lemma DeletePlansConcernOnlyTheirName(name: string, a: string)
    requires a != name
    ensures forall j :: 0 <= j < |DeletePlan(name)| ==> !Concerns(DeletePlan(name)[j], a)
    ensures forall j :: 0 <= j < |DeletePlanAsWritten(name)| ==> !Concerns(DeletePlanAsWritten(name)[j], a)
  {
    DeletePlanSteps(name);
    AsWrittenPlanSteps(name);
    UnitAndRouteApart(name, a);
    UnitAndRouteApart(a, name);
    if ServiceName(name) == ServiceName(a) { ServiceNameInjective(name, a); }
    if UnitPath(name) == UnitPath(a) { UnitPathInjective(name, a); }
    if RoutePath(name) == RoutePath(a) { RoutePathInjective(name, a); }
  }

  /** Deleting one casker, whatever happens, leaves every other casker's artifacts as they were. */
  lemma DeleteKeepsOtherTenants(rec: Record, h: Host, faults: set<Step>, a: string)
    requires rec.name.StringValue? ==> a != rec.name.s
    ensures SameArtifacts(h, Delete(rec, h, faults).host, a)
    ensures SameArtifacts(h, DeleteAsWritten(rec, h, faults).host, a)
  {
    if rec.name.StringValue? {
      DeletePlansConcernOnlyTheirName(rec.name.s, a);
      RunKeepsOthers(DeletePlan(rec.name.s), 0, h, faults, a);
      RunKeepsOthers(DeletePlanAsWritten(rec.name.s), 0, h, faults, a);
    }
  }
}
