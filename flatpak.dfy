/**
 * The Flatpak front end: parsing `flatpak list` and `flatpak update
 * --no-deploy` output, looking an application up, and building the update
 * command. Running a command is replaced by its exit code and output,
 * passed in as parameters.
 */
module Flatpak {
  import opened Wrappers
  import Strings

  /** One row of `flatpak list --app --columns=application,name,version,branch`. */
  datatype App = App(id: string, name: string, version: string, branch: string)

  const DefaultBranch: string := "stable"
  const UpdatePrefix: string := "Updating app/"

  // ---------------------------------------------------------------------
  // list_installed_apps
  // ---------------------------------------------------------------------

  /** One output line: blank lines and lines with fewer than three tab-separated fields give nothing. */
  function AppOfLine(line: string): (r: Option<App>)
    ensures r.Some? ==> Strings.Strip(line) != [] && |Strings.Split(line, '\t')| >= 3
  {
    if Strings.Strip(line) == [] then None
    else
      var parts := Strings.Split(line, '\t');
      if |parts| < 3 then None
      else Some(App(parts[0], parts[1], parts[2], if |parts| > 3 then parts[3] else DefaultBranch))
  }

  /** The rows that parsed, in order. */
  function Present(rows: seq<Option<App>>): seq<App>
  {
    if rows == [] then []
    else (if rows[0].Some? then [rows[0].value] else []) + Present(rows[1..])
  }

  lemma {:induction false} PresentAppend(a: seq<Option<App>>, b: seq<Option<App>>)
    ensures Present(a + b) == Present(a) + Present(b)
    decreases |a|
  {
    if a == [] {
      assert a + b == b;
    } else {
      assert (a + b)[0] == a[0] && (a + b)[1..] == a[1..] + b;
      PresentAppend(a[1..], b);
    }
  }

  function Rows(lines: seq<string>): (r: seq<Option<App>>)
    ensures |r| == |lines| && forall k :: 0 <= k < |lines| ==> r[k] == AppOfLine(lines[k])
  {
    seq(|lines|, k requires 0 <= k < |lines| => AppOfLine(lines[k]))
  }

  /** The apps of the output lines, in line order. */
  function ParseLines(lines: seq<string>): seq<App> {
    Present(Rows(lines))
  }

  /** list_installed_apps on the command's exit code and standard output. */
  method ListInstalledApps(returnCode: int, stdout: string) returns (apps: seq<App>)
    ensures returnCode != 0 ==> apps == []
    ensures returnCode == 0 ==> apps == ParseLines(Strings.Split(Strings.Strip(stdout), '\n'))
  {
    if returnCode != 0 {
      return [];
    }
    var lines := Strings.Split(Strings.Strip(stdout), '\n');
    apps := [];
    var i := 0;
    while i < |lines|
      invariant 0 <= i <= |lines|
      invariant apps == ParseLines(lines[..i])
    {
      var row := AppOfLine(lines[i]);
      ParseLinesSnoc(lines, i);
      if row.Some? {
        apps := apps + [row.value];
      }
      i := i + 1;
    }
    assert lines[..i] == lines;
  }

  /** Parsing one more line adds that line's app, if it has one. */
  lemma {:induction false} ParseLinesSnoc(lines: seq<string>, i: nat)
    requires i < |lines|
    ensures ParseLines(lines[..i + 1]) ==
      ParseLines(lines[..i]) + (if AppOfLine(lines[i]).Some? then [AppOfLine(lines[i]).value] else [])
  {
    RowsSnoc(lines, i);
    PresentSnoc(Rows(lines[..i]), AppOfLine(lines[i]));
  }

  lemma {:induction false} RowsSnoc(lines: seq<string>, i: nat)
    requires i < |lines|
    ensures Rows(lines[..i + 1]) == Rows(lines[..i]) + [AppOfLine(lines[i])]
  {
    var before, after := Rows(lines[..i]), Rows(lines[..i + 1]);
    forall k | 0 <= k < |after| ensures after[k] == (before + [AppOfLine(lines[i])])[k] {
      assert lines[..i + 1][k] == lines[k];
      if k < i {
        assert lines[..i][k] == lines[k];
      }
    }
  }

  lemma {:induction false} PresentSnoc(rows: seq<Option<App>>, row: Option<App>)
    ensures Present(rows + [row]) == Present(rows) + (if row.Some? then [row.value] else [])
  {
    PresentAppend(rows, [row]);
    assert [row][1..] == [];
  }

  /** The row `flatpak list` prints for an app. */
  function FormatApp(a: App): string {
    Strings.Join([a.id, a.name, a.version, a.branch], "\t")
  }

  /** The listing of several apps, one row per line. */
  function Listing(apps: seq<App>): string {
    Strings.Join(seq(|apps|, k requires 0 <= k < |apps| => FormatApp(apps[k])), "\n")
  }

  /** Fields the list format can carry: no tabs or newlines, and an id that starts with a non-space. */
  predicate Printable(a: App) {
    && '\t' !in a.id && '\t' !in a.name && '\t' !in a.version && '\t' !in a.branch
    && '\n' !in a.id && '\n' !in a.name && '\n' !in a.version && '\n' !in a.branch
    && |a.id| > 0 && !Strings.IsSpace(a.id[0])
  }

  /** A printed row parses back to the app. */
  lemma {:induction false} AppLineRoundTrip(a: App)
    requires Printable(a)
    ensures AppOfLine(FormatApp(a)) == Some(a)
  {
    var line := FormatApp(a);
    var fields := [a.id, a.name, a.version, a.branch];
    Strings.SplitJoin(fields, '\t');
    assert line[0] == a.id[0];
    Strings.NonBlankStrip(line, 0);
  }

  /** A row with only three fields defaults the branch to `stable`. */
  lemma {:induction false} ThreeFieldRow(id: string, name: string, version: string)
    requires '\t' !in id && '\t' !in name && '\t' !in version
    requires |id| > 0 && !Strings.IsSpace(id[0])
    ensures AppOfLine(Strings.Join([id, name, version], "\t")) == Some(App(id, name, version, DefaultBranch))
  {
    var line := Strings.Join([id, name, version], "\t");
    Strings.SplitJoin([id, name, version], '\t');
    assert line[0] == id[0];
    Strings.NonBlankStrip(line, 0);
  }

  /** Parsing the rows of a listing gives back the apps, in order. */
  lemma {:induction false} ParseListedLines(apps: seq<App>)
    requires forall k :: 0 <= k < |apps| ==> Printable(apps[k])
    ensures ParseLines(seq(|apps|, k requires 0 <= k < |apps| => FormatApp(apps[k]))) == apps
  {
    var rows := Rows(seq(|apps|, k requires 0 <= k < |apps| => FormatApp(apps[k])));
    forall k | 0 <= k < |apps| ensures rows[k] == Some(apps[k]) {
      AppLineRoundTrip(apps[k]);
    }
    PresentAllSome(rows, apps);
  }

  /**
   * The whole `flatpak list` output parses back to the apps it lists, in
   * order (the last branch ends in a non-space, as the output's strip
   * would otherwise eat it).
   */
  lemma {:induction false} ListingRoundTrip(apps: seq<App>)
    requires apps != [] && forall k :: 0 <= k < |apps| ==> Printable(apps[k])
    requires var b := apps[|apps| - 1].branch; |b| > 0 && !Strings.IsSpace(b[|b| - 1])
    ensures ParseLines(Strings.Split(Strings.Strip(Listing(apps)), '\n')) == apps
  {
    ListingStripped(apps);
    ListingLines(apps);
    ParseListedLines(apps);
  }

  lemma {:induction false} ListingStripped(apps: seq<App>)
    requires apps != [] && |apps[0].id| > 0 && !Strings.IsSpace(apps[0].id[0])
    requires var b := apps[|apps| - 1].branch; |b| > 0 && !Strings.IsSpace(b[|b| - 1])
    ensures Strings.Strip(Listing(apps)) == Listing(apps)
  {
    ListingEnds(apps, seq(|apps|, k requires 0 <= k < |apps| => FormatApp(apps[k])));
    Strings.StripUnchanged(Listing(apps));
  }

  lemma {:induction false} ListingLines(apps: seq<App>)
    requires apps != [] && forall k :: 0 <= k < |apps| ==> Printable(apps[k])
    ensures Strings.Split(Listing(apps), '\n') == seq(|apps|, k requires 0 <= k < |apps| => FormatApp(apps[k]))
  {
    var rows := seq(|apps|, k requires 0 <= k < |apps| => FormatApp(apps[k]));
    forall k | 0 <= k < |rows| ensures '\n' !in rows[k] {
      var a := apps[k];
      Strings.JoinFree([a.id, a.name, a.version, a.branch], "\t", '\n');
    }
    Strings.SplitJoin(rows, '\n');
  }

  lemma {:induction false} ListingEnds(apps: seq<App>, rows: seq<string>)
    requires apps != [] && |apps[0].id| > 0 && |apps[|apps| - 1].branch| > 0
    requires rows == seq(|apps|, k requires 0 <= k < |apps| => FormatApp(apps[k]))
    ensures var text := Listing(apps); var b := apps[|apps| - 1].branch;
            |text| > 0 && text[0] == apps[0].id[0] && text[|text| - 1] == b[|b| - 1]
  {
    var first := apps[0];
    var last := apps[|apps| - 1];
    Strings.JoinFirst([first.id, first.name, first.version, first.branch], "\t");
    Strings.JoinLast([last.id, last.name, last.version, last.branch], "\t");
    Strings.JoinFirst(rows, "\n");
    Strings.JoinLast(rows, "\n");
  }

  lemma {:induction false} PresentAllSome(rows: seq<Option<App>>, apps: seq<App>)
    requires |rows| == |apps| && forall k :: 0 <= k < |apps| ==> rows[k] == Some(apps[k])
    ensures Present(rows) == apps
    decreases |rows|
  {
    if rows != [] {
      PresentAllSome(rows[1..], apps[1..]);
      assert [apps[0]] + apps[1..] == apps;
    }
  }

  // ---------------------------------------------------------------------
  // check_for_updates
  // ---------------------------------------------------------------------

  /** The id an `Updating app/` line names: every prefix occurrence removed, then up to the first `/`. */
  function UpdateId(line: string): string {
    Strings.Before(Strings.RemoveAll(line, UpdatePrefix), '/')
  }

  /** The ids named by the `Updating app/` lines, in line order; other lines are ignored. */
  function UpdatableIds(lines: seq<string>): seq<string>
  {
    if lines == [] then []
    else (if Strings.StartsWith(lines[0], UpdatePrefix) then [UpdateId(lines[0])] else []) + UpdatableIds(lines[1..])
  }

  lemma {:induction false} UpdatableIdsAppend(a: seq<string>, b: seq<string>)
    ensures UpdatableIds(a + b) == UpdatableIds(a) + UpdatableIds(b)
    decreases |a|
  {
    if a == [] {
      assert a + b == b;
    } else {
      assert (a + b)[0] == a[0] && (a + b)[1..] == a[1..] + b;
      UpdatableIdsAppend(a[1..], b);
    }
  }

  /** check_for_updates on the standard output of `flatpak update --no-deploy`. */
  method CheckForUpdates(stdout: string) returns (ids: seq<string>)
    ensures ids == UpdatableIds(Strings.Split(stdout, '\n'))
  {
    var lines := Strings.Split(stdout, '\n');
    ids := [];
    var i := 0;
    while i < |lines|
      invariant 0 <= i <= |lines|
      invariant ids == UpdatableIds(lines[..i])
    {
      if Strings.StartsWith(lines[i], UpdatePrefix) {
        ids := ids + [UpdateId(lines[i])];
      }
      UpdatableIdsAppend(lines[..i], [lines[i]]);
      assert lines[..i + 1] == lines[..i] + [lines[i]];
      i := i + 1;
    }
    assert lines[..i] == lines;
  }

  /**
   * An `Updating app/<ref>` line whose ref holds no space names the text up
   * to the first `/` of the ref.
   */
  lemma {:induction false} UpdateLineNamesApp(rest: string)
    requires ' ' !in rest
    ensures UpdateId(UpdatePrefix + rest) == Strings.Before(rest, '/')
  {
    var line := UpdatePrefix + rest;
    assert line[..|UpdatePrefix|] == UpdatePrefix && line[|UpdatePrefix|..] == rest;
    assert UpdatePrefix[8] == ' ';
    Strings.NotContainsMissing(rest, UpdatePrefix, 8);
    Strings.RemoveAllAbsent(rest, UpdatePrefix);
  }

  /** The update line for a ref `<id>/<arch>/<branch>` names the id. */
  lemma {:induction false} UpdateLineOfRef(id: string, tail: string)
    requires '/' !in id && ' ' !in id && ' ' !in tail
    ensures UpdateId(UpdatePrefix + id + "/" + tail) == id
  {
    var rest := id + "/" + tail;
    assert UpdatePrefix + id + "/" + tail == UpdatePrefix + rest;
    assert ' ' !in rest by {
      assert forall k :: 0 <= k < |rest| ==> rest[k] == if k < |id| then id[k] else if k == |id| then '/' else tail[k - |id| - 1];
    }
    UpdateLineNamesApp(rest);
    assert rest == id + ['/'] + tail;
    Strings.BeforePrefix(id, '/', tail);
  }

  // ---------------------------------------------------------------------
  // get_app_info
  // ---------------------------------------------------------------------

  /** get_app_info over the installed apps: the first app with the id, or `None`. */
  method GetAppInfo(apps: seq<App>, appId: string) returns (r: Option<App>)
    ensures r.None? <==> forall k :: 0 <= k < |apps| ==> apps[k].id != appId
    ensures r.Some? ==> exists i :: 0 <= i < |apps| && apps[i] == r.value && r.value.id == appId
                                    && forall j :: 0 <= j < i ==> apps[j].id != appId
  {
    var i := 0;
    while i < |apps|
      invariant 0 <= i <= |apps|
      invariant forall j :: 0 <= j < i ==> apps[j].id != appId
    {
      if apps[i].id == appId {
        return Some(apps[i]);
      }
      i := i + 1;
    }
    return None;
  }

  // ---------------------------------------------------------------------
  // update_apps and update_specific_apps
  // ---------------------------------------------------------------------

  function Ids(apps: seq<App>): (r: seq<string>)
    ensures |r| == |apps| && forall k :: 0 <= k < |apps| ==> r[k] == apps[k].id
  {
    seq(|apps|, k requires 0 <= k < |apps| => apps[k].id)
  }

  /** The requested ids that are installed, in request order. */
  function KeepInstalled(ids: seq<string>, installed: seq<string>): seq<string>
  {
    if ids == [] then []
    else (if ids[0] in installed then [ids[0]] else []) + KeepInstalled(ids[1..], installed)
  }

  lemma {:induction false} KeepInstalledMembers(ids: seq<string>, installed: seq<string>)
    ensures forall x :: x in KeepInstalled(ids, installed) <==> x in ids && x in installed
    decreases |ids|
  {
    if ids != [] {
      KeepInstalledMembers(ids[1..], installed);
      assert ids == [ids[0]] + ids[1..];
    }
  }

  lemma {:induction false} KeepInstalledAll(ids: seq<string>, installed: seq<string>)
    requires forall k :: 0 <= k < |ids| ==> ids[k] in installed
    ensures KeepInstalled(ids, installed) == ids
    decreases |ids|
  {
    if ids != [] {
      KeepInstalledAll(ids[1..], installed);
      assert [ids[0]] + ids[1..] == ids;
    }
  }

  lemma {:induction false} KeepInstalledAppend(a: seq<string>, b: seq<string>, installed: seq<string>)
    ensures KeepInstalled(a + b, installed) == KeepInstalled(a, installed) + KeepInstalled(b, installed)
    decreases |a|
  {
    if a == [] {
      assert a + b == b;
    } else {
      assert (a + b)[0] == a[0] && (a + b)[1..] == a[1..] + b;
      KeepInstalledAppend(a[1..], b, installed);
    }
  }

  /**
   * The command update_apps would run, or `None` when every requested id is
   * missing. No ids (or an empty list) means all apps; `installed` is what
   * list_installed_apps returns.
   */
  function UpdatePlan(appIds: Option<seq<string>>, interactive: bool, installed: seq<App>): Option<seq<string>> {
    var base := ["flatpak", "update"] + (if interactive then [] else ["--noninteractive"]);
    if appIds.None? || appIds.value == [] then Some(base)
    else
      var valid := KeepInstalled(appIds.value, Ids(installed));
      if valid == [] then None else Some(base + valid)
  }

  /** update_apps refuses exactly when ids were requested and none of them is installed. */
  lemma {:induction false} UpdatePlanRefuses(appIds: Option<seq<string>>, interactive: bool, installed: seq<App>)
    ensures var ids := if appIds.None? then [] else appIds.value;
            UpdatePlan(appIds, interactive, installed).None? <==> ids != [] && forall k :: 0 <= k < |ids| ==> ids[k] !in Ids(installed)
  {
    var ids := if appIds.None? then [] else appIds.value;
    KeepInstalledMembers(ids, Ids(installed));
    var valid := KeepInstalled(ids, Ids(installed));
    if valid == [] && ids != [] {
      forall k | 0 <= k < |ids| ensures ids[k] !in Ids(installed) {
        assert ids[k] in ids;
      }
    }
    if ids != [] && forall k :: 0 <= k < |ids| ==> ids[k] !in Ids(installed) {
      if valid != [] {
        assert valid[0] in ids;
      }
    }
  }

  /**
   * The command starts `flatpak update`, holds `--noninteractive` exactly
   * when not interactive, and names exactly the requested ids that are
   * installed (for real Flatpak ids, which never read `--noninteractive`).
   */
  lemma {:induction false} UpdatePlanCommand(appIds: seq<string>, interactive: bool, installed: seq<App>)
    requires "--noninteractive" !in Ids(installed)
    requires UpdatePlan(Some(appIds), interactive, installed).Some?
    ensures var cmd := UpdatePlan(Some(appIds), interactive, installed).value;
            && cmd[..2] == ["flatpak", "update"]
            && ("--noninteractive" in cmd <==> !interactive)
            && (appIds != [] ==> forall x :: x in cmd[2..] && x != "--noninteractive" <==> x in appIds && x in Ids(installed))
  {
    var cmd := UpdatePlan(Some(appIds), interactive, installed).value;
    var base := ["flatpak", "update"] + (if interactive then [] else ["--noninteractive"]);
    var valid := if appIds == [] then [] else KeepInstalled(appIds, Ids(installed));
    KeepInstalledMembers(appIds, Ids(installed));
    assert cmd == base + valid;
    assert cmd[2..] == base[2..] + valid;
    assert "--noninteractive" !in valid;
  }

  /** When every requested id is installed, the command updates exactly those ids, in order. */
  lemma {:induction false} UpdatePlanAllInstalled(appIds: seq<string>, interactive: bool, installed: seq<App>)
    requires appIds != [] && forall k :: 0 <= k < |appIds| ==> appIds[k] in Ids(installed)
    ensures UpdatePlan(Some(appIds), interactive, installed)
            == Some(["flatpak", "update"] + (if interactive then [] else ["--noninteractive"]) + appIds)
  {
    KeepInstalledAll(appIds, Ids(installed));
  }

  /** update_apps: builds the command, runs it (its exit code is `exitCode`) unless no requested id is installed. */
  method UpdateApps(appIds: Option<seq<string>>, interactive: bool, installed: seq<App>, exitCode: int)
    returns (command: Option<seq<string>>, ok: bool)
    ensures command == UpdatePlan(appIds, interactive, installed)
    ensures ok <==> command.Some? && exitCode == 0
  {
    var cmd := ["flatpak", "update"];
    if !interactive {
      cmd := cmd + ["--noninteractive"];
    }
    assert cmd == ["flatpak", "update"] + (if interactive then [] else ["--noninteractive"]);
    if appIds.Some? && appIds.value != [] {
      var requested := appIds.value;
      var installedIds := Ids(installed);
      var valid := [];
      var i := 0;
      while i < |requested|
        invariant 0 <= i <= |requested|
        invariant valid == KeepInstalled(requested[..i], installedIds)
      {
        KeepInstalledAppend(requested[..i], [requested[i]], installedIds);
        assert requested[..i + 1] == requested[..i] + [requested[i]];
        if requested[i] in installedIds {
          valid := valid + [requested[i]];
        }
        i := i + 1;
      }
      assert requested[..i] == requested;
      if valid == [] {
        return None, false;
      }
      cmd := cmd + valid;
    }
    command := Some(cmd);
    ok := exitCode == 0;
  }

  /** The answer to the `[Y/n]` prompt declines when, lower-cased, it starts with `n`. */
  predicate Declines(response: string) {
    Strings.StartsWith(Strings.Lower(response), "n")
  }

  /**
   * update_specific_apps: nothing to update succeeds at once; an interactive
   * user who declines stops it; otherwise it is update_apps on the list.
   * `response` is what the prompt reads.
   */
  method UpdateSpecificApps(updatable: seq<string>, interactive: bool, response: string, installed: seq<App>, exitCode: int)
    returns (command: Option<seq<string>>, ok: bool)
    ensures updatable == [] ==> command.None? && ok
    ensures updatable != [] && interactive && Declines(response) ==> command.None? && !ok
    ensures updatable != [] && !(interactive && Declines(response)) ==>
              command == UpdatePlan(Some(updatable), interactive, installed) && (ok <==> command.Some? && exitCode == 0)
  {
    if updatable == [] {
      return None, true;
    }
    if interactive && Declines(response) {
      return None, false;
    }
    command, ok := UpdateApps(Some(updatable), interactive, installed, exitCode);
  }

  /** `N` and `no` decline; `y` and the empty answer do not. */
  lemma {:induction false} DeclineAnswers()
    ensures Declines("N") && Declines("no") && !Declines("y") && !Declines("")
  {
    assert Strings.Lower("N") == "n";
    assert Strings.Lower("no")[..1] == "n";
  }
}
