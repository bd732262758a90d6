/** Where the files of the disk model live, and why its different paths are different files. */
module Paths {
  import opened Filenames
  import opened GoStrings
  import opened Storage

  const CONF := "/etc/nginx/conf.d/"
  const MODSEC := "/etc/nginx/modsec/"

  function FileOf(p: Path): string {
    match p
    case Main(name) => CONF + name
    case Waf(id) => MODSEC + ("host_" + id + ".conf")
    case Cloud(id) => CONF + ("includes/cloud_ips_" + id + ".conf")
    case FilterIps => CONF + "includes/filter_sub_ips.conf"
    case FilterUas => CONF + "filter_sub_uas.conf"
    case Banned => CONF + "includes/banned_ips.conf"
  }

  /** Host files are named by `GetConfigFilename`. */
  predicate Named(p: Path) {
    p.Main? ==> HasPrefix(p.name, "proxy_host_")
  }

  lemma ConfigNamesAreHostNames(h: Filenames.Host)
    ensures Named(Main(GetConfigFilename(h)))
  {
    var name := GetConfigFilename(h);
    var rest := if h.domainNames == [] || SanitizeFilename(h.domainNames[0]) == "" then h.id
                else SanitizeFilename(h.domainNames[0]);
    assert name == "proxy_host_" + rest + ".conf";
    assert name[..|"proxy_host_"|] == "proxy_host_";
  }

  /** A mark that tells the kinds of path apart: the directory and the first letters below it. */
  function Kind(p: Path): string {
    match p
    case Main(_) => "p"
    case Waf(_) => "m"
    case Cloud(_) => "ic"
    case FilterIps => "if"
    case FilterUas => "f"
    case Banned => "ib"
  }

  lemma KindShows(p: Path)
    requires Named(p)
    ensures var f := FileOf(p);
            && |f| > 18 && (f[11] == 'm' <==> p.Waf?)
            && (!p.Waf? ==> f[..18] == CONF && f[18] == Kind(p)[0])
            && (!p.Waf? && f[18] == 'i' ==> |f| > 27 && f[27] == Kind(p)[1])
  {
  }

  /** Different paths of the model are different files. */
  lemma PathsAreFiles(p: Path, q: Path)
    requires Named(p) && Named(q)
    ensures FileOf(p) == FileOf(q) <==> p == q
  {
    if FileOf(p) == FileOf(q) {
      SameKind(p, q);
      match p
      case Main(name) => DropBoth(CONF, name, q.name);
      case Waf(id) =>
        DropBoth(MODSEC, "host_" + id + ".conf", "host_" + q.id + ".conf");
        SameMiddle("host_", id, q.id, ".conf");
      case Cloud(id) =>
        DropBoth(CONF, "includes/cloud_ips_" + id + ".conf", "includes/cloud_ips_" + q.id + ".conf");
        SameMiddle("includes/cloud_ips_", id, q.id, ".conf");
      case _ =>
    }
  }

  lemma SameKind(p: Path, q: Path)
    requires Named(p) && Named(q) && FileOf(p) == FileOf(q)
    ensures Kind(p) == Kind(q)
  {
    hide FileOf;
    KindShows(p);
    KindShows(q);
  }

  lemma DropBoth(s: string, x: string, y: string)
    requires s + x == s + y
    ensures x == y
  {
    assert (s + x)[|s|..] == x && (s + y)[|s|..] == y;
  }

  lemma SameMiddle(before: string, x: string, y: string, after: string)
    requires before + x + after == before + y + after
    ensures x == y
  {
    var (s, t) := (before + x + after, before + y + after);
    assert s[|before|..|s| - |after|] == x && t[|before|..|t| - |after|] == y;
  }
}
