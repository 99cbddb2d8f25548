/**
  The file names and file contents the handlers derive from a tenant's name
  and port: the instance directory layout, the systemd unit and the nginx
  location fragment.
 */
module Configs {
  import opened Decimal

  /** The instance directory copied for every tenant, under ./caskers. */
  const TemplateName: string := "default"

  /** The directory of an instance that holds the manifest and the icons. */
  const PublicDir: string := "pb_public/"

  /** The manifest inside an instance directory. */
  const ManifestFile: string := "pb_public/manifest.json"

  datatype IconSize = Icon192 | Icon512

  function Pixels(size: IconSize): nat {
    match size
    case Icon192 => 192
    case Icon512 => 512
  }

  /** The icon inside an instance directory, replacing the template's placeholder. */
  function IconFile(size: IconSize): string {
    match size
    case Icon192 => "pb_public/icon192.png"
    case Icon512 => "pb_public/icon512.png"
  }

  /** Where the record store keeps the uploaded icon of a record. */
  function IconSourcePath(recordId: string, iconName: string): string {
    "./pb_data/storage/wcb5o2t312i8q8r/" + recordId + "/" + iconName
  }

  /** The unit name handed to systemctl. */
  function ServiceName(name: string): string {
    name + ".service"
  }

  /**
    The unit systemctl acts on when the hooks name "nginx": systemctl appends
    ".service" to a unit name without a suffix, as it does for a tenant's.
   */
  const ProxyUnit: string := "nginx.service"

  const UnitDir: string := "/lib/systemd/system/"
  const RouteDir: string := "/etc/nginx/sites-partials/"

  function UnitPath(name: string): string {
    UnitDir + name + ".service"
  }

  /** The file systemd loads a unit from, by unit name. */
  function UnitFileOf(unit: string): string {
    UnitDir + unit
  }

  function RoutePath(name: string): string {
    RouteDir + name + ".conf"
  }

  /** Paths nginx reads fragments from when it (re)loads its configuration. */
  predicate InRouteDir(path: string) {
    |RouteDir| <= |path| && path[..|RouteDir|] == RouteDir
  }

  /** The deployed instance directory the unit runs in. */
  function WorkingDirectory(name: string): string {
    "/var/www/casker/caskers/" + name
  }

  /** The loopback address the instance listens on. */
  function Address(port: int): string {
    "127.0.0.1:" + FormatInt(port)
  }

  /** `t` occurs somewhere inside `s`. */
  predicate HasInfix(s: string, t: string) {
    exists i :: 0 <= i <= |s| && t <= s[i..]
  }

  /** The concatenation of a list of text pieces. */
  function Join(parts: seq<string>): string {
    if parts == [] then "" else Join(parts[..|parts| - 1]) + parts[|parts| - 1]
  }

  /** Every piece of a joined text occurs in it. */
  lemma {:induction false} JoinHasPiece(parts: seq<string>, k: nat)
    requires k < |parts|
    ensures HasInfix(Join(parts), parts[k])
    decreases |parts|
  {
    var init, last := parts[..|parts| - 1], parts[|parts| - 1];
    var s := Join(parts);
    assert s == Join(init) + last;
    if k == |parts| - 1 {
      var i := |Join(init)|;
      assert s[i..] == last;
      assert 0 <= i <= |s| && parts[k] <= s[i..];
    } else {
      assert init[k] == parts[k];
      JoinHasPiece(init, k);
      var i :| 0 <= i <= |Join(init)| && parts[k] <= Join(init)[i..];
      assert s[i..] == Join(init)[i..] + last;
      assert 0 <= i <= |s| && parts[k] <= s[i..];
    }
  }

  function ExecStart(name: string, port: int): string {
    "ExecStart=" + WorkingDirectory(name) + "/myapp serve --http=\"" + Address(port) + "\""
  }

  /**
    The systemd unit GenerateSystemdFile writes, cut into pieces at the lines
    that matter (each line keeps the tab of the Go raw string it comes from).
   */
  function UnitPieces(name: string, port: int): (parts: seq<string>)
    ensures |parts| == 11
    ensures parts[1] == "Description=" + name
    ensures parts[3] == "WorkingDirectory=" + WorkingDirectory(name)
    ensures parts[5] == "Restart=always"
    ensures parts[7] == ExecStart(name, port)
    ensures parts[9] == "WantedBy=multi-user.target"
  {
    var wd := WorkingDirectory(name);
    [ "[Unit]\n\t", "Description=" + name,
      "\n\n\t[Service]\n\tType=simple\n\tUser=root\n\tGroup=root\n\t", "WorkingDirectory=" + wd,
      "\n\tLimitNOFILE=4096\n\t", "Restart=always",
      "\n\tRestartSec=5s\n\tStandardOutput=append:" + wd + "/errors.log\n\tStandardError=append:" + wd
      + "/errors.log\n\t", ExecStart(name, port),
      "\n\t\n\t[Install]\n\t", "WantedBy=multi-user.target", "\n\t" ]
  }

  /**
    The unit text: it names the instance, runs the instance's own binary from
    its deployed directory, restarts it always and binds it to the loopback
    address with the given port.
   */
  function UnitText(name: string, port: int): string {
    Join(UnitPieces(name, port))
  }

  /** The unit text carries the lines that tie the unit to its tenant and port. */
  lemma UnitTextMentions(name: string, port: int)
    ensures var text := UnitText(name, port);
      && HasInfix(text, "Description=" + name)
      && HasInfix(text, "WorkingDirectory=" + WorkingDirectory(name))
      && HasInfix(text, ExecStart(name, port))
      && HasInfix(text, "Restart=always")
      && HasInfix(text, "WantedBy=multi-user.target")
  {
    var parts := UnitPieces(name, port);
    JoinHasPiece(parts, 1);
    JoinHasPiece(parts, 3);
    JoinHasPiece(parts, 5);
    JoinHasPiece(parts, 7);
    JoinHasPiece(parts, 9);
  }

  /** The nginx `location` block GenerateNginxConfig writes, cut at the lines that matter. */
  function RoutePieces(name: string, port: int): (parts: seq<string>)
    ensures |parts| == 9
    ensures parts[1] == "location /" + name + "/ {"
    ensures parts[3] == "proxy_read_timeout 360s;"
    ensures parts[5] == "rewrite ^/" + name + "/(.*)$ /$1 break;"
    ensures parts[7] == "proxy_pass http://" + Address(port) + "/;"
  {
    [ "\n\t\t", "location /" + name + "/ {",
      "\n\t\t\tproxy_set_header Connection '';\n\t\t\tproxy_http_version 1.1;\n\t\t\t", "proxy_read_timeout 360s;",
      "\n\t\n\t\t\tproxy_set_header Host $host;"
      + "\n\t\t\tproxy_set_header X-Real-IP $remote_addr;"
      + "\n\t\t\tproxy_set_header X-Forwarded-For $proxy_add_x_forwarded_for;"
      + "\n\t\t\tproxy_set_header X-Forwarded-Proto $scheme;\n\t\n\t\t\t",
      "rewrite ^/" + name + "/(.*)$ /$1 break;",
      "\n\t\t\t\n\t\t\t", "proxy_pass http://" + Address(port) + "/;",
      "\n\t\t}\n\t" ]
  }

  /**
    The route text: it serves the path prefix /<name>/, strips that prefix
    and forwards to the instance's loopback port with a long read timeout.
   */
  function RouteText(name: string, port: int): string {
    Join(RoutePieces(name, port))
  }

  /** The route text carries the lines that tie the fragment to its tenant and port. */
  lemma RouteTextMentions(name: string, port: int)
    ensures var text := RouteText(name, port);
      && HasInfix(text, "location /" + name + "/ {")
      && HasInfix(text, "rewrite ^/" + name + "/(.*)$ /$1 break;")
      && HasInfix(text, "proxy_pass http://" + Address(port) + "/;")
      && HasInfix(text, "proxy_read_timeout 360s;")
  {
    var parts := RoutePieces(name, port);
    JoinHasPiece(parts, 1);
    JoinHasPiece(parts, 3);
    JoinHasPiece(parts, 5);
    JoinHasPiece(parts, 7);
  }

  /**
    A configuration file the create hook writes, identified by what it
    renders: the unit of an instance or its nginx fragment.
   */
  datatype ConfigFile = UnitFile(name: string, port: int) | RouteFile(name: string, port: int)

  /** The text of a configuration file. */
  function Render(f: ConfigFile): string {
    match f
    case UnitFile(name, port) => UnitText(name, port)
    case RouteFile(name, port) => RouteText(name, port)
  }
}

/** Facts about the derived names that keep tenants apart. */
module Naming {
  import opened Configs

  lemma {:induction false} SuffixedInjective(dir: string, a: string, b: string, ext: string)
    requires dir + a + ext == dir + b + ext
    ensures a == b
  {
    var s := dir + a + ext;
    assert |a| == |b|;
    assert s[|dir|..|dir| + |a|] == a;
    assert (dir + b + ext)[|dir|..|dir| + |b|] == b;
  }

  lemma UnitPathInjective(a: string, b: string)
    requires UnitPath(a) == UnitPath(b)
    ensures a == b
  {
    SuffixedInjective(UnitDir, a, b, ".service");
  }

  lemma RoutePathInjective(a: string, b: string)
    requires RoutePath(a) == RoutePath(b)
    ensures a == b
  {
    SuffixedInjective(RouteDir, a, b, ".conf");
  }

  lemma ServiceNameInjective(a: string, b: string)
    requires ServiceName(a) == ServiceName(b)
    ensures a == b
  {
    assert "" + a + ".service" == ServiceName(a);
    assert "" + b + ".service" == ServiceName(b);
    SuffixedInjective("", a, b, ".service");
  }

  /** A unit file and an nginx fragment never share a path. */
  lemma UnitAndRouteApart(a: string, b: string)
    ensures UnitPath(a) != RoutePath(b)
    ensures !InRouteDir(UnitPath(a))
    ensures InRouteDir(RoutePath(b))
  {
    assert UnitPath(a)[1] == 'l';
    assert RoutePath(b)[1] == 'e';
    assert RoutePath(b)[..|RouteDir|] == RouteDir;
  }

  /** The two icons and the manifest of an instance are different files. */
  lemma InstanceFilesDistinct()
    ensures IconFile(Icon192) != IconFile(Icon512)
    ensures ManifestFile != IconFile(Icon192) && ManifestFile != IconFile(Icon512)
  {
    assert IconFile(Icon192)[14] == '1';
    assert IconFile(Icon512)[14] == '5';
    assert ManifestFile[10] == 'm';
    assert IconFile(Icon192)[10] == 'i' && IconFile(Icon512)[10] == 'i';
  }

  /** A tenant's unit file is the file systemd loads the tenant's unit from. */
  lemma UnitPathIsUnitFile(a: string)
    ensures UnitFileOf(ServiceName(a)) == UnitPath(a)
  {
    assert UnitDir + (a + ".service") == UnitDir + a + ".service";
  }

  /**
    The unit the handlers restart and reload for nginx is a tenant's unit
    exactly when the tenant is named nginx.
   */
  lemma ServiceIsProxyOnlyForNginx(a: string)
    ensures ServiceName(a) == ProxyUnit <==> a == "nginx"
  {
    assert ProxyUnit == ServiceName("nginx");
    if ServiceName(a) == ProxyUnit {
      ServiceNameInjective(a, "nginx");
    }
  }
}
