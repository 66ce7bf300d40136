/** CreateBuildUrl: the link to the CCNet build report that is attached to the
    build run. */
module BuildUrl {
  import opened Wrappers
  import opened Text

  /** The integration property keys the URL is built from. */
  const BuildTimeKey: string := "CCNetBuildTime"
  const BuildDateKey: string := "CCNetBuildDate"
  const ProjectKey: string := "CCNetProject"
  const LabelKey: string := "CCNetLabel"

  /** IntegrationProperties[key] cast to string: null when the key is absent. */
  function Property(props: map<string, string>, key: string): Option<string> {
    if key in props then Some(props[key]) else None
  }

  /** How string concatenation and string.Join render a possibly-null string. */
  function OrEmpty(s: Option<string>): string {
    if s.Some? then s.value else ""
  }

  /** The server segment: the configured build server, or "local" when it is null or empty. */
  function ServerName(server: Option<string>): (r: string)
    ensures r != ""
    ensures server.None? || server == Some("") ==> r == "local"
    ensures server.Some? && server.value != "" ==> r == server.value
  {
    if server.None? || server.value == "" then "local" else server.value
  }

  /** The suffix appended to the log file name: "Lbuild." and the label for a
      successful build, nothing otherwise. */
  function LabelPart(buildLabel: Option<string>, succeeded: bool): string {
    if succeeded then "Lbuild." + OrEmpty(buildLabel) else ""
  }

  /** The file segment: "log", the build date without its dashes, the build
      time without its colons, the label part, then ".xml". */
  function LogFileName(buildDate: string, buildTime: string, buildLabel: Option<string>, succeeded: bool): (r: string)
    ensures StartsWith(r, "log" + RemoveAll(buildDate, '-') + RemoveAll(buildTime, ':'))
    ensures EndsWith(r, LabelPart(buildLabel, succeeded) + ".xml")
    ensures |r| == 3 + |RemoveAll(buildDate, '-')| + |RemoveAll(buildTime, ':')| + |LabelPart(buildLabel, succeeded)| + 4
  {
    var date, time, part := RemoveAll(buildDate, '-'), RemoveAll(buildTime, ':'), LabelPart(buildLabel, succeeded);
    var stem, tail := "log" + date + time, part + ".xml";
    assert |stem| == 3 + |date| + |time| && |tail| == |part| + 4;
    EndsWithAppended(stem, tail);
    stem + tail
  }

  /** The separator put between the web root and "server/": one "/" exactly
      when the web root lacks a trailing one. */
  function Separator(webRoot: string): string {
    if EndsWith(webRoot, "/") then "" else "/"
  }

  /** The part of the report path between "server/" and "/ViewBuildReport.aspx". */
  function Location(server: Option<string>, buildProject: string, file: string): string {
    ServerName(server) + "/project/" + buildProject + "/build/" + file
  }

  /** CreateBuildUrl: null when no web root is configured; otherwise the report
      URL. The source adds the pieces to a list and joins them with the empty
      separator, which is their concatenation. The build time and build date
      are dereferenced (Replace) and so must be present; a missing project or
      label reads as an empty string, as Join and + render null. */
  function CreateBuildUrl(webRoot: Option<string>, server: Option<string>, props: map<string, string>, succeeded: bool)
    : (r: Result<Option<string>>)
    ensures r == Ok(None) <==> webRoot.None?
    ensures webRoot.Some? && BuildTimeKey !in props ==> r == Err(NullReference(BuildTimeKey))
    ensures webRoot.Some? && BuildTimeKey in props && BuildDateKey !in props ==> r == Err(NullReference(BuildDateKey))
    ensures r.Ok? && webRoot.Some? ==> r.value.Some? && BuildTimeKey in props && BuildDateKey in props
  {
    if webRoot.None? then Ok(None)
    else
      var buildTime := Property(props, BuildTimeKey);
      var buildDate := Property(props, BuildDateKey);
      var buildProject := Property(props, ProjectKey);
      var buildLabel := Property(props, LabelKey);
      if buildTime.None? then Err(NullReference(BuildTimeKey))
      else if buildDate.None? then Err(NullReference(BuildDateKey))
      else
        var file := LogFileName(buildDate.value, buildTime.value, buildLabel, succeeded);
        var location := Location(server, OrEmpty(buildProject), file);
        Ok(Some(webRoot.value + (Separator(webRoot.value) + ("server/" + (location + "/ViewBuildReport.aspx")))))
  }

  /** The URL begins with the web root, followed by "server/" directly when the
      web root ends in "/" and by "/server/" otherwise: exactly one slash is
      inserted. */
  lemma BuildUrlStart(webRoot: string, server: Option<string>, props: map<string, string>, succeeded: bool)
    requires BuildTimeKey in props && BuildDateKey in props
    ensures CreateBuildUrl(Some(webRoot), server, props, succeeded).Ok?
    ensures var u := CreateBuildUrl(Some(webRoot), server, props, succeeded).value.value;
      StartsWith(u, webRoot) &&
      (EndsWith(webRoot, "/") ==> StartsWith(u[|webRoot|..], "server/")) &&
      (!EndsWith(webRoot, "/") ==> StartsWith(u[|webRoot|..], "/server/"))
  {
    var file := LogFileName(props[BuildDateKey], props[BuildTimeKey], Property(props, LabelKey), succeeded);
    var location := Location(server, OrEmpty(Property(props, ProjectKey)), file);
    var sep := Separator(webRoot);
    var inner := location + "/ViewBuildReport.aspx";
    var path := "server/" + inner;
    var tail := sep + path;
    var u := webRoot + tail;
    assert u == CreateBuildUrl(Some(webRoot), server, props, succeeded).value.value;
    EndsWithAppended(webRoot, tail);
    assert u[|webRoot|..] == tail;
    EndsWithAppended("server/", inner);
    if EndsWith(webRoot, "/") {
      assert tail == path;
    } else {
      assert tail == ("/" + "server/") + inner;
      StartsWithExtend("/" + "server/", inner, "/server/");
    }
  }

  /** The URL ends with "/ViewBuildReport.aspx". */
  lemma BuildUrlEnd(webRoot: string, server: Option<string>, props: map<string, string>, succeeded: bool)
    requires BuildTimeKey in props && BuildDateKey in props
    ensures CreateBuildUrl(Some(webRoot), server, props, succeeded).Ok?
    ensures EndsWith(CreateBuildUrl(Some(webRoot), server, props, succeeded).value.value, "/ViewBuildReport.aspx")
  {
    var file := LogFileName(props[BuildDateKey], props[BuildTimeKey], Property(props, LabelKey), succeeded);
    var location := Location(server, OrEmpty(Property(props, ProjectKey)), file);
    var sep := Separator(webRoot);
    var inner := location + "/ViewBuildReport.aspx";
    var path := "server/" + inner;
    var tail := sep + path;
    assert webRoot + tail == CreateBuildUrl(Some(webRoot), server, props, succeeded).value.value;
    EndsWithAppended(location, "/ViewBuildReport.aspx");
    EndsWithExtend("server/", inner, "/ViewBuildReport.aspx");
    EndsWithExtend(sep, path, "/ViewBuildReport.aspx");
    EndsWithExtend(webRoot, tail, "/ViewBuildReport.aspx");
  }

  /** The URL is the web root, the separator, "server/", the server name,
      "/project/", the build project, "/build/", the log file name and
      "/ViewBuildReport.aspx", in this order. */
  lemma BuildUrlSegments(webRoot: string, server: Option<string>, props: map<string, string>, succeeded: bool)
    requires BuildTimeKey in props && BuildDateKey in props
    ensures CreateBuildUrl(Some(webRoot), server, props, succeeded) ==
      Ok(Some(webRoot + Separator(webRoot) + "server/" + ServerName(server) + "/project/" + OrEmpty(Property(props, ProjectKey)) +
              "/build/" + LogFileName(props[BuildDateKey], props[BuildTimeKey], Property(props, LabelKey), succeeded) +
              "/ViewBuildReport.aspx"))
  {
    var file := LogFileName(props[BuildDateKey], props[BuildTimeKey], Property(props, LabelKey), succeeded);
    var sep, name, project := Separator(webRoot), ServerName(server), OrEmpty(Property(props, ProjectKey));
    Regroup(webRoot, sep, "server/", name, "/project/", project, "/build/", file, "/ViewBuildReport.aspx");
  }

  /** The join of the URL's pieces, regrouped from the nesting CreateBuildUrl uses. */
  lemma Regroup(w: string, s: string, v: string, n: string, p: string, j: string, b: string, f: string, r: string)
    ensures w + (s + (v + ((n + p + j + b + f) + r))) == w + s + v + n + p + j + b + f + r
  {
    var l := n + p + j + b + f;
    assert w + (s + (v + (l + r))) == (w + s + v) + l + r;
    assert (w + s + v) + l == w + s + v + n + p + j + b + f;
  }

  /** The label reaches the URL only for a successful build: a failed build's
      URL does not depend on it, and a successful build's URL tells labels apart. */
  lemma LabelOnlyWhenSucceeded(webRoot: string, server: Option<string>, props: map<string, string>, label1: string, label2: string, succeeded: bool)
    requires BuildTimeKey in props && BuildDateKey in props
    ensures CreateBuildUrl(Some(webRoot), server, props[LabelKey := label1], succeeded)
            == CreateBuildUrl(Some(webRoot), server, props[LabelKey := label2], succeeded)
            <==> !succeeded || label1 == label2
  {
    var p1, p2 := props[LabelKey := label1], props[LabelKey := label2];
    var project := OrEmpty(Property(props, ProjectKey));
    assert OrEmpty(Property(p1, ProjectKey)) == project && OrEmpty(Property(p2, ProjectKey)) == project;
    var date, time := props[BuildDateKey], props[BuildTimeKey];
    assert p1[BuildDateKey] == date && p1[BuildTimeKey] == time;
    assert p2[BuildDateKey] == date && p2[BuildTimeKey] == time;
    assert Property(p1, LabelKey) == Some(label1) && Property(p2, LabelKey) == Some(label2);
    var stem := "log" + RemoveAll(date, '-') + RemoveAll(time, ':');
    var l1, l2 := LabelPart(Some(label1), succeeded), LabelPart(Some(label2), succeeded);
    var f1, f2 := stem + l1 + ".xml", stem + l2 + ".xml";
    assert f1 == LogFileName(date, time, Some(label1), succeeded);
    assert f2 == LogFileName(date, time, Some(label2), succeeded);
    var lead := ServerName(server) + "/project/" + project + "/build/";
    var loc1, loc2 := lead + f1, lead + f2;
    assert loc1 == Location(server, project, f1) && loc2 == Location(server, project, f2);
    var sep := Separator(webRoot);
    var v := "/ViewBuildReport.aspx";
    var t1 := webRoot + (sep + ("server/" + (loc1 + v)));
    var t2 := webRoot + (sep + ("server/" + (loc2 + v)));
    assert CreateBuildUrl(Some(webRoot), server, p1, succeeded) == Ok(Some(t1));
    assert CreateBuildUrl(Some(webRoot), server, p2, succeeded) == Ok(Some(t2));
    if succeeded && t1 == t2 {
      CancelPrefix(webRoot, sep + ("server/" + (loc1 + v)), sep + ("server/" + (loc2 + v)));
      CancelPrefix(sep, "server/" + (loc1 + v), "server/" + (loc2 + v));
      CancelPrefix("server/", loc1 + v, loc2 + v);
      CancelSuffix(loc1, loc2, v);
      CancelPrefix(lead, f1, f2);
      CancelSuffix(stem + l1, stem + l2, ".xml");
      CancelPrefix(stem, l1, l2);
      CancelPrefix("Lbuild.", label1, label2);
    }
  }

  /** Whenever a web root is configured and the URL can be built, it is not
      empty, so the run's "Build Report" link is attached exactly when a web
      root is configured. */
  lemma BuildUrlNeverEmpty(webRoot: Option<string>, server: Option<string>, props: map<string, string>, succeeded: bool)
    ensures var r := CreateBuildUrl(webRoot, server, props, succeeded);
      r.Ok? ==> (r.value.Some? <==> webRoot.Some?) && (r.value.Some? ==> r.value.value != "")
  {
    if webRoot.Some? && BuildTimeKey in props && BuildDateKey in props {
      BuildUrlEnd(webRoot.value, server, props, succeeded);
    }
  }
}
