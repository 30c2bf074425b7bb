/**
 * Native package-manager integration: which distribution and which
 * package manager the system has, whether a package is installed, and the
 * install and database-update commands. What the system answers (the
 * os-release text, which release files and programs exist, the exit codes
 * and output of the query commands, the effective user id) is passed in.
 */
module PackageManager {
  import opened Wrappers
  import Strings

  // ---------------------------------------------------------------------
  // Distribution detection
  // ---------------------------------------------------------------------

  const Distros: seq<string> := ["arch", "ubuntu", "fedora", "opensuse", "alpine"]
  const UnknownDistro: string := "unknown"

  /** The os-release tests, in the order they are tried. */
  function ReleaseDistro(content: string): Option<string> {
    if Strings.Contains(content, "ID=arch") || Strings.Contains(content, "ID_LIKE=arch") then Some("arch")
    else if Strings.Contains(content, "ID=ubuntu") || Strings.Contains(content, "ID_LIKE=debian") then Some("ubuntu")
    else if Strings.Contains(content, "ID=fedora") || Strings.Contains(content, "ID_LIKE=fedora") then Some("fedora")
    else if Strings.Contains(content, "ID=opensuse") || Strings.Contains(content, "ID_LIKE=suse") then Some("opensuse")
    else if Strings.Contains(content, "ID=alpine") then Some("alpine")
    else None
  }

  /** The release-marker files tried when os-release decides nothing; `files` are those that exist. */
  function MarkerDistro(files: set<string>): string {
    if "/etc/arch-release" in files then "arch"
    else if "/etc/ubuntu-release" in files || "/etc/debian_version" in files then "ubuntu"
    else if "/etc/fedora-release" in files || "/etc/redhat-release" in files then "fedora"
    else if "/etc/SuSE-release" in files then "opensuse"
    else if "/etc/alpine-release" in files then "alpine"
    else UnknownDistro
  }

  /**
   * detect_distribution: `osRelease` is the text of /etc/os-release, or
   * `None` when it is missing or cannot be read.
   */
  function DetectDistribution(osRelease: Option<string>, files: set<string>): (r: string)
    ensures r in Distros || r == UnknownDistro
  {
    var fromRelease := if osRelease.Some? then ReleaseDistro(osRelease.value) else None;
    if fromRelease.Some? then fromRelease.value else MarkerDistro(files)
  }

  /** A detection rule: the distribution and the markers any one of which selects it. */
  datatype Rule = Rule(distro: string, markers: seq<string>)

  const ReleaseRules: seq<Rule> := [
    Rule("arch", ["ID=arch", "ID_LIKE=arch"]),
    Rule("ubuntu", ["ID=ubuntu", "ID_LIKE=debian"]),
    Rule("fedora", ["ID=fedora", "ID_LIKE=fedora"]),
    Rule("opensuse", ["ID=opensuse", "ID_LIKE=suse"]),
    Rule("alpine", ["ID=alpine"])
  ]

  const MarkerRules: seq<Rule> := [
    Rule("arch", ["/etc/arch-release"]),
    Rule("ubuntu", ["/etc/ubuntu-release", "/etc/debian_version"]),
    Rule("fedora", ["/etc/fedora-release", "/etc/redhat-release"]),
    Rule("opensuse", ["/etc/SuSE-release"]),
    Rule("alpine", ["/etc/alpine-release"])
  ]

  predicate Fires(present: string -> bool, rule: Rule) {
    exists k :: 0 <= k < |rule.markers| && present(rule.markers[k])
  }

  lemma {:induction false} FiresOne(present: string -> bool, rule: Rule, a: string)
    requires rule.markers == [a]
    ensures Fires(present, rule) <==> present(a)
  {
    if present(a) {
      assert present(rule.markers[0]);
    }
  }

  lemma {:induction false} FiresTwo(present: string -> bool, rule: Rule, a: string, b: string)
    requires rule.markers == [a, b]
    ensures Fires(present, rule) <==> present(a) || present(b)
  {
    if present(a) {
      assert present(rule.markers[0]);
    }
    if present(b) {
      assert present(rule.markers[1]);
    }
  }

  /** The reference reading of a rule chain: the first rule with a present marker decides. */
  function FirstRule(present: string -> bool, rules: seq<Rule>): Option<string>
    decreases |rules|
  {
    if rules == [] then None
    else if Fires(present, rules[0]) then Some(rules[0].distro)
    else FirstRule(present, rules[1..])
  }

  /** The first rule that fires wins, and nothing is chosen when no rule fires. */
  lemma {:induction false} FirstRuleWins(present: string -> bool, rules: seq<Rule>)
    ensures FirstRule(present, rules).None? <==> forall i :: 0 <= i < |rules| ==> !Fires(present, rules[i])
    ensures FirstRule(present, rules).Some? ==>
              exists i :: 0 <= i < |rules| && Fires(present, rules[i]) && rules[i].distro == FirstRule(present, rules).value
                          && forall j :: 0 <= j < i ==> !Fires(present, rules[j])
    decreases |rules|
  {
    if rules != [] && !Fires(present, rules[0]) {
      FirstRuleWins(present, rules[1..]);
      if FirstRule(present, rules).Some? {
        var i :| 1 <= i + 1 <= |rules[1..]| && Fires(present, rules[1..][i]) && rules[1..][i].distro == FirstRule(present, rules).value
                 && forall j :: 0 <= j < i ==> !Fires(present, rules[1..][j]);
        assert rules[i + 1] == rules[1..][i];
        assert forall j :: 1 <= j < i + 1 ==> rules[j] == rules[1..][j - 1];
      } else {
        forall i | 0 <= i < |rules| ensures !Fires(present, rules[i]) {
          if i > 0 {
            assert rules[i] == rules[1..][i - 1];
          }
        }
      }
    }
  }

  /** The os-release chain is the first-match reading of its rule table. */
  lemma {:induction false} ReleaseDistroIsFirstRule(content: string)
    ensures ReleaseDistro(content) == FirstRule(p => Strings.Contains(content, p), ReleaseRules)
  {
    var present := p => Strings.Contains(content, p);
    var rules := ReleaseRules;
    assert rules[1..][0] == rules[1] && rules[1..][1..] == rules[2..];
    assert rules[2..][0] == rules[2] && rules[2..][1..] == rules[3..];
    assert rules[3..][0] == rules[3] && rules[3..][1..] == rules[4..];
    assert rules[4..][0] == rules[4] && rules[4..][1..] == [];
    FiresTwo(present, rules[0], "ID=arch", "ID_LIKE=arch");
    FiresTwo(present, rules[1], "ID=ubuntu", "ID_LIKE=debian");
    FiresTwo(present, rules[2], "ID=fedora", "ID_LIKE=fedora");
    FiresTwo(present, rules[3], "ID=opensuse", "ID_LIKE=suse");
    FiresOne(present, rules[4], "ID=alpine");
  }

  /** The marker-file chain is the first-match reading of its rule table, `unknown` when none fires. */
  lemma {:induction false} MarkerDistroIsFirstRule(files: set<string>)
    ensures MarkerDistro(files) == match FirstRule(f => f in files, MarkerRules) case None => UnknownDistro case Some(d) => d
  {
    var present := f => f in files;
    var rules := MarkerRules;
    assert rules[1..][0] == rules[1] && rules[1..][1..] == rules[2..];
    assert rules[2..][0] == rules[2] && rules[2..][1..] == rules[3..];
    assert rules[3..][0] == rules[3] && rules[3..][1..] == rules[4..];
    assert rules[4..][0] == rules[4] && rules[4..][1..] == [];
    FiresOne(present, rules[0], "/etc/arch-release");
    FiresTwo(present, rules[1], "/etc/ubuntu-release", "/etc/debian_version");
    FiresTwo(present, rules[2], "/etc/fedora-release", "/etc/redhat-release");
    FiresOne(present, rules[3], "/etc/SuSE-release");
    FiresOne(present, rules[4], "/etc/alpine-release");
  }

  /** An Arch-family os-release is Arch even when it also mentions another family. */
  lemma {:induction false} ArchMarkersFirst(content: string, files: set<string>)
    requires Strings.Contains(content, "ID=arch") || Strings.Contains(content, "ID_LIKE=arch")
    ensures DetectDistribution(Some(content), files) == "arch"
  {
  }

  // ---------------------------------------------------------------------
  // Package manager selection
  // ---------------------------------------------------------------------

  /** A manager's command words (its command strings, split on spaces). */
  datatype ManagerInfo =
    | Known(name: string, install: seq<string>, update: seq<string>, search: seq<string>)
    | UnknownManager

  /** The managers in the order they are probed. */
  const Managers: seq<ManagerInfo> := [
    Known("pacman", ["pacman", "-S"], ["pacman", "-Sy"], ["pacman", "-Ss"]),
    Known("apt", ["apt", "install"], ["apt", "update"], ["apt", "search"]),
    Known("dnf", ["dnf", "install"], ["dnf", "check-update"], ["dnf", "search"]),
    Known("zypper", ["zypper", "install"], ["zypper", "refresh"], ["zypper", "search"]),
    Known("apk", ["apk", "add"], ["apk", "update"], ["apk", "search"])
  ]

  /** detect_package_manager: the first manager, in probe order, that `which` finds (`available`). */
  method DetectPackageManager(available: set<string>) returns (m: ManagerInfo)
    ensures m.UnknownManager? <==> forall i :: 0 <= i < |Managers| ==> Managers[i].name !in available
    ensures m.Known? ==> exists i :: 0 <= i < |Managers| && m == Managers[i] && m.name in available
                                     && forall j :: 0 <= j < i ==> Managers[j].name !in available
  {
    var i := 0;
    while i < |Managers|
      invariant 0 <= i <= |Managers|
      invariant forall j :: 0 <= j < i ==> Managers[j].name !in available
    {
      if Managers[i].name in available {
        return Managers[i];
      }
      i := i + 1;
    }
    return UnknownManager;
  }

  // ---------------------------------------------------------------------
  // Installed check and install command
  // ---------------------------------------------------------------------

  /** The query is_package_installed runs for a manager, `None` for an unknown one. */
  function QueryCommand(managerName: string, package: string): (r: Option<seq<string>>)
    ensures r.Some? ==> |r.value| > 0 && r.value[|r.value| - 1] == package
  {
    if managerName == "pacman" then Some(["pacman", "-Qi", package])
    else if managerName == "apt" then Some(["dpkg", "-l", package])
    else if managerName == "dnf" || managerName == "zypper" then Some(["rpm", "-q", package])
    else if managerName == "apk" then Some(["apk", "info", "-e", package])
    else None
  }

  /** is_package_installed on the query's exit code and output. */
  function IsPackageInstalled(managerName: string, returnCode: int, stdout: string): (r: bool)
    ensures r <==> QueryCommand(managerName, "").Some? && returnCode == 0
                   && (managerName == "apt" ==> Strings.Contains(stdout, "ii"))
  {
    if managerName == "pacman" then returnCode == 0
    else if managerName == "apt" then returnCode == 0 && Strings.Contains(stdout, "ii")
    else if managerName == "dnf" then returnCode == 0
    else if managerName == "zypper" then returnCode == 0
    else if managerName == "apk" then returnCode == 0
    else false
  }

  /** `sudo` goes first when it is available and the user is not root. */
  function SudoPrefix(sudoAvailable: bool, euid: int): seq<string> {
    if sudoAvailable && euid != 0 then ["sudo"] else []
  }

  /** The non-interactive flag of each manager. */
  function NonInteractiveFlag(managerName: string): seq<string> {
    if managerName in ["apt", "dnf", "zypper"] then ["-y"]
    else if managerName == "pacman" then ["--noconfirm"]
    else []
  }

  lemma {:induction false} NonInteractiveFlagCases(managerName: string)
    ensures NonInteractiveFlag(managerName) ==
      if managerName == "apt" || managerName == "dnf" || managerName == "zypper" then ["-y"]
      else if managerName == "pacman" then ["--noconfirm"]
      else []
  {
  }

  function InstallCommand(m: ManagerInfo, sudoAvailable: bool, euid: int, packages: seq<string>): seq<string>
    requires m.Known?
  {
    SudoPrefix(sudoAvailable, euid) + m.install + packages + NonInteractiveFlag(m.name)
  }

  /** The packages whose query does not report them installed, in input order. */
  function ToInstall(packages: seq<string>, managerName: string, query: string -> (int, string)): (r: seq<string>)
    ensures |r| <= |packages|
  {
    if packages == [] then []
    else
      var (code, out) := query(packages[0]);
      (if IsPackageInstalled(managerName, code, out) then [] else [packages[0]]) + ToInstall(packages[1..], managerName, query)
  }

  lemma {:induction false} ToInstallAppend(a: seq<string>, b: seq<string>, managerName: string, query: string -> (int, string))
    ensures ToInstall(a + b, managerName, query) == ToInstall(a, managerName, query) + ToInstall(b, managerName, query)
    decreases |a|
  {
    if a == [] {
      assert a + b == b;
    } else {
      assert (a + b)[0] == a[0] && (a + b)[1..] == a[1..] + b;
      ToInstallAppend(a[1..], b, managerName, query);
    }
  }

  /** A package is to be installed exactly when it was asked for and its query does not report it installed. */
  lemma {:induction false} ToInstallMembers(packages: seq<string>, managerName: string, query: string -> (int, string))
    ensures forall x :: x in ToInstall(packages, managerName, query) <==>
              x in packages && !IsPackageInstalled(managerName, query(x).0, query(x).1)
    decreases |packages|
  {
    if packages != [] {
      ToInstallMembers(packages[1..], managerName, query);
      assert packages == [packages[0]] + packages[1..];
    }
  }

  /**
   * What install_packages does: the command it runs (`None` when it runs
   * nothing) and its answer, given the install's exit code.
   */
  function InstallOutcome(packages: seq<string>, m: ManagerInfo, sudoAvailable: bool, euid: int,
                          query: string -> (int, string), exitCode: int): (Option<seq<string>>, bool)
  {
    if packages == [] then (None, true)
    else if m.UnknownManager? then (None, false)
    else
      var todo := ToInstall(packages, m.name, query);
      if todo == [] then (None, true)
      else (Some(InstallCommand(m, sudoAvailable, euid, todo)), exitCode == 0)
  }

  /**
   * Nothing is run for an empty request, an unknown manager or when every
   * package is already installed; otherwise the command installs the
   * missing packages and the answer is the exit status.
   */
  lemma {:induction false} InstallOutcomeCases(packages: seq<string>, m: ManagerInfo, sudoAvailable: bool, euid: int,
                            query: string -> (int, string), exitCode: int)
    ensures var (cmd, ok) := InstallOutcome(packages, m, sudoAvailable, euid, query, exitCode);
            && (packages == [] ==> cmd.None? && ok)
            && (packages != [] && m.UnknownManager? ==> cmd.None? && !ok)
            && (packages != [] && m.Known? ==>
                  && (cmd.None? <==> forall x :: x in packages ==> IsPackageInstalled(m.name, query(x).0, query(x).1))
                  && (cmd.None? ==> ok)
                  && (cmd.Some? ==> cmd.value == InstallCommand(m, sudoAvailable, euid, ToInstall(packages, m.name, query))
                                    && (ok <==> exitCode == 0)))
  {
    if packages != [] && m.Known? {
      var todo := ToInstall(packages, m.name, query);
      ToInstallMembers(packages, m.name, query);
      if todo != [] {
        assert todo[0] in todo;
      }
    }
  }

  /**
   * The install command: `sudo` first exactly under the sudo rule, then the
   * manager's two install words, then the packages in order, then `-y` for
   * apt, dnf and zypper, `--noconfirm` for pacman and nothing for apk.
   */
  lemma {:induction false} InstallCommandLayout(m: ManagerInfo, sudoAvailable: bool, euid: int, packages: seq<string>)
    requires m in Managers
    ensures var cmd := InstallCommand(m, sudoAvailable, euid, packages);
            var start := |SudoPrefix(sudoAvailable, euid)| + 2;
            var flag := if m.name == "pacman" then ["--noconfirm"] else if m.name == "apk" then [] else ["-y"];
            && (cmd[0] == "sudo" <==> sudoAvailable && euid != 0)
            && cmd[start - 2..start] == m.install
            && cmd[start..] == packages + flag
  {
    var pre := SudoPrefix(sudoAvailable, euid);
    var cmd := InstallCommand(m, sudoAvailable, euid, packages);
    assert |m.install| == 2 && m.install[0] != "sudo";
    assert cmd == pre + (m.install + (packages + NonInteractiveFlag(m.name)));
    assert cmd[|pre|..] == m.install + (packages + NonInteractiveFlag(m.name));
  }

  /** The `to_install` loop of install_packages. */
  method FilterNotInstalled(packages: seq<string>, managerName: string, query: string -> (int, string))
    returns (todo: seq<string>)
    ensures todo == ToInstall(packages, managerName, query)
  {
    todo := [];
    var i := 0;
    while i < |packages|
      invariant 0 <= i <= |packages|
      invariant todo == ToInstall(packages[..i], managerName, query)
    {
      ToInstallAppend(packages[..i], [packages[i]], managerName, query);
      assert packages[..i + 1] == packages[..i] + [packages[i]];
      var (code, out) := query(packages[i]);
      if !IsPackageInstalled(managerName, code, out) {
        todo := todo + [packages[i]];
      }
      i := i + 1;
    }
    assert packages[..i] == packages;
  }

  /** install_packages, building `to_install` and the command as the source does. */
  method InstallPackages(packages: seq<string>, m: ManagerInfo, sudoAvailable: bool, euid: int,
                         query: string -> (int, string), exitCode: int)
    returns (command: Option<seq<string>>, ok: bool)
    ensures (command, ok) == InstallOutcome(packages, m, sudoAvailable, euid, query, exitCode)
  {
    if packages == [] {
      return None, true;
    }
    if m.UnknownManager? {
      return None, false;
    }
    var todo := FilterNotInstalled(packages, m.name, query);
    if todo == [] {
      return None, true;
    }
    var cmd := m.install;
    if sudoAvailable && euid != 0 {
      cmd := ["sudo"] + cmd;
    }
    cmd := cmd + todo;
    ghost var base := cmd;
    assert base == SudoPrefix(sudoAvailable, euid) + m.install + todo;
    NonInteractiveFlagCases(m.name);
    if m.name == "apt" || m.name == "dnf" || m.name == "zypper" {
      cmd := cmd + ["-y"];
    } else if m.name == "pacman" {
      cmd := cmd + ["--noconfirm"];
    }
    assert cmd == base + NonInteractiveFlag(m.name);
    command := Some(cmd);
    ok := exitCode == 0;
  }

  /** update_package_database: the command it runs (`None` for an unknown manager) and its answer. */
  function UpdateDatabase(m: ManagerInfo, sudoAvailable: bool, euid: int, exitCode: int): (r: (Option<seq<string>>, bool))
    ensures r.0.None? <==> m.UnknownManager?
    ensures r.1 <==> m.Known? && exitCode == 0
  {
    if m.UnknownManager? then (None, false)
    else (Some(SudoPrefix(sudoAvailable, euid) + m.update), exitCode == 0)
  }

  /** The database update and the install use the same sudo rule. */
  lemma {:induction false} SameSudoRule(m: ManagerInfo, sudoAvailable: bool, euid: int, packages: seq<string>, exitCode: int)
    requires m in Managers
    ensures var u := UpdateDatabase(m, sudoAvailable, euid, exitCode).0.value;
            && (u[0] == "sudo" <==> sudoAvailable && euid != 0)
            && (u[0] == "sudo" <==> InstallCommand(m, sudoAvailable, euid, packages)[0] == "sudo")
  {
    assert m.install[0] != "sudo" && m.update[0] != "sudo";
  }

  // ---------------------------------------------------------------------
  // Package categories
  // ---------------------------------------------------------------------

  datatype Category = Category(name: string, description: string, packages: map<string, seq<string>>)

  const Categories: map<string, Category> := map[
    "gaming" := Category("Gaming Support", "Essential gaming libraries and tools", map[
      "arch" := ["steam", "lutris", "wine", "winetricks", "lib32-mesa", "lib32-vulkan-radeon", "lib32-vulkan-intel"],
      "ubuntu" := ["steam-installer", "lutris", "wine", "winetricks", "mesa-utils", "vulkan-utils"],
      "fedora" := ["steam", "lutris", "wine", "winetricks", "mesa-dri-drivers", "vulkan-loader"],
      "opensuse" := ["steam", "lutris", "wine", "winetricks", "Mesa-dri", "libvulkan1"],
      "alpine" := ["steam", "wine"]]),
    "media" := Category("Media Codecs", "Audio/video codecs and media support", map[
      "arch" := ["ffmpeg", "gstreamer", "gst-plugins-good", "gst-plugins-bad", "gst-plugins-ugly", "gst-libav"],
      "ubuntu" := ["ubuntu-restricted-extras", "ffmpeg", "gstreamer1.0-plugins-good", "gstreamer1.0-plugins-bad", "gstreamer1.0-plugins-ugly"],
      "fedora" := ["ffmpeg", "gstreamer1-plugins-good", "gstreamer1-plugins-bad-free", "gstreamer1-plugins-ugly"],
      "opensuse" := ["ffmpeg", "gstreamer-plugins-good", "gstreamer-plugins-bad", "gstreamer-plugins-ugly"],
      "alpine" := ["ffmpeg", "gstreamer"]]),
    "development" := Category("Development Tools", "Essential development packages", map[
      "arch" := ["git", "base-devel", "python", "nodejs", "npm", "code"],
      "ubuntu" := ["git", "build-essential", "python3", "python3-pip", "nodejs", "npm", "curl", "wget"],
      "fedora" := ["git", "gcc", "gcc-c++", "make", "python3", "python3-pip", "nodejs", "npm"],
      "opensuse" := ["git", "gcc", "gcc-c++", "make", "python3", "python3-pip", "nodejs", "npm"],
      "alpine" := ["git", "build-base", "python3", "py3-pip", "nodejs", "npm"]]),
    "system" := Category("System Tools", "Essential system utilities and libraries", map[
      "arch" := ["curl", "wget", "unzip", "p7zip", "htop", "neofetch", "flatpak"],
      "ubuntu" := ["curl", "wget", "unzip", "p7zip-full", "htop", "neofetch", "flatpak"],
      "fedora" := ["curl", "wget", "unzip", "p7zip", "htop", "neofetch", "flatpak"],
      "opensuse" := ["curl", "wget", "unzip", "p7zip", "htop", "neofetch", "flatpak"],
      "alpine" := ["curl", "wget", "unzip", "p7zip", "htop", "neofetch", "flatpak"]])
  ]

  /** The category's packages for a distribution, none when it has no list (`.get(distro, [])`). */
  function CategoryPackages(category: Category, distro: string): seq<string> {
    if distro in category.packages then category.packages[distro] else []
  }

  /** Every category has a list for each known distribution and none for any other. */
  lemma {:induction false} CategoriesCoverDistros(c: string, d: string)
    requires c in Categories
    ensures d in Distros ==> CategoryPackages(Categories[c], d) != []
    ensures d !in Distros ==> CategoryPackages(Categories[c], d) == []
  {
  }

  /**
   * install_category: an unknown category fails, a category with nothing
   * for the distribution succeeds without running anything, otherwise it is
   * install_packages on the category's list.
   */
  method InstallCategory(category: string, distro: string, m: ManagerInfo, sudoAvailable: bool, euid: int,
                         query: string -> (int, string), exitCode: int)
    returns (command: Option<seq<string>>, ok: bool)
    ensures category !in Categories ==> command.None? && !ok
    ensures category in Categories ==>
              (command, ok) == InstallOutcome(CategoryPackages(Categories[category], distro), m, sudoAvailable, euid, query, exitCode)
  {
    if category !in Categories {
      return None, false;
    }
    var info := Categories[category];
    var packages := CategoryPackages(info, distro);
    if packages == [] {
      return None, true;
    }
    command, ok := InstallPackages(packages, m, sudoAvailable, euid, query, exitCode);
  }

  /** On a distribution no category knows, every known category succeeds without installing. */
  lemma {:induction false} UnknownDistroInstallsNothing(category: string, m: ManagerInfo, sudoAvailable: bool, euid: int,
                                     query: string -> (int, string), exitCode: int)
    requires category in Categories
    ensures InstallOutcome(CategoryPackages(Categories[category], UnknownDistro), m, sudoAvailable, euid, query, exitCode) == (None, true)
  {
    CategoriesCoverDistros(category, UnknownDistro);
  }
}
