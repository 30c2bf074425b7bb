/**
 * The configuration store of flatpack_config.py: the recursive merge of a
 * user configuration over the defaults, dot-path `get` and `set`, the
 * distribution detection that picks the defaults, the pacman flag table
 * and the CachyOS optimisation table.
 *
 * Reading and writing config.json are left to the caller: a loaded file is
 * a `map`, and whether `save_config` succeeds is an input.
 */
module Config {
  import opened Wrappers
  import opened JsonValue
  import Strings

  // ---------------------------------------------------------------------
  // merge_configs
  // ---------------------------------------------------------------------

  /** Both sides hold a dict under `k`, so merge_configs descends into them. */
  predicate BothDicts(d: map<string, Json>, u: map<string, Json>, k: string) {
    k in d && k in u && d[k].JObj? && u[k].JObj?
  }

  /**
   * merge_configs: every key of either side; a user value replaces the
   * default unless both are dicts, which are merged the same way.
   */
  function Merge(d: map<string, Json>, u: map<string, Json>): (r: map<string, Json>)
    ensures r.Keys == d.Keys + u.Keys
    ensures forall k :: k in d && k !in u ==> r[k] == d[k]
    ensures forall k :: k in u && !BothDicts(d, u, k) ==> r[k] == u[k]
    ensures forall k :: BothDicts(d, u, k) ==> r[k].JObj? && r[k].obj.Keys == d[k].obj.Keys + u[k].obj.Keys
    decreases JObj(u)
  {
    map k | k in d.Keys + u.Keys ::
      if BothDicts(d, u, k) then JObj(Merge(d[k].obj, u[k].obj))
      else if k in u then u[k]
      else d[k]
  }

  /** merge_configs as the source writes it: copy the defaults, then assign each user key. */
  method MergeConfigs(d: map<string, Json>, u: map<string, Json>) returns (r: map<string, Json>)
    ensures r == Merge(d, u)
    decreases JObj(u)
  {
    r := d;
    var pending := u.Keys;
    while pending != {}
      invariant pending <= u.Keys
      invariant r.Keys == d.Keys + (u.Keys - pending)
      invariant forall k :: k in r ==> r[k] == (if k in u.Keys - pending then Merge(d, u)[k] else d[k])
      decreases pending
    {
      var k :| k in pending;
      if k in r && r[k].JObj? && u[k].JObj? {
        assert BothDicts(d, u, k);
        var sub := MergeConfigs(r[k].obj, u[k].obj);
        r := r[k := JObj(sub)];
      } else {
        r := r[k := u[k]];
      }
      pending := pending - {k};
    }
    assert r.Keys == Merge(d, u).Keys;
  }

  /** The value at a dotted path: `None` once a segment is missing or the value is not a dict. */
  function Lookup(v: Json, keys: seq<string>): (r: Option<Json>)
    ensures keys == [] ==> r == Some(v)
    ensures keys != [] && !(v.JObj? && keys[0] in v.obj) ==> r == None
  {
    if keys == [] then Some(v)
    else if v.JObj? && keys[0] in v.obj then Lookup(v.obj[keys[0]], keys[1..])
    else None
  }

  /**
   * A value the user file sets at a path, other than a dict, is what the
   * merged configuration holds there.
   */
  lemma {:induction false} MergeUserLeafWins(d: map<string, Json>, u: map<string, Json>, keys: seq<string>, v: Json)
    requires Lookup(JObj(u), keys) == Some(v) && !v.JObj?
    ensures Lookup(JObj(Merge(d, u)), keys) == Some(v)
    decreases |keys|
  {
    var k := keys[0];
    if BothDicts(d, u, k) {
      MergeUserLeafWins(d[k].obj, u[k].obj, keys[1..], v);
    } else {
      assert Merge(d, u)[k] == u[k];
    }
  }

  /**
   * The user file does not reach the path: along `keys` it holds dicts
   * until some segment is missing. (Lookup of the path in the user file
   * fails, and no proper prefix of it holds a non-dict.)
   */
  predicate UserLeavesOpen(u: map<string, Json>, keys: seq<string>): (open: bool)
    ensures open ==> Lookup(JObj(u), keys).None?
    decreases |keys|
  {
    keys != [] && (keys[0] !in u || (u[keys[0]].JObj? && UserLeavesOpen(u[keys[0]].obj, keys[1..])))
  }

  /**
   * A default value at any depth survives the merge when the user file
   * does not reach its path: the dicts above it are merged, not replaced.
   */
  lemma {:induction false} MergeDefaultKept(d: map<string, Json>, u: map<string, Json>, keys: seq<string>, v: Json)
    requires Lookup(JObj(d), keys) == Some(v)
    requires UserLeavesOpen(u, keys)
    ensures Lookup(JObj(Merge(d, u)), keys) == Some(v)
    decreases |keys|
  {
    var k := keys[0];
    if k !in u {
      assert Merge(d, u)[k] == d[k];
    } else {
      assert BothDicts(d, u, k);
      MergeDefaultKept(d[k].obj, u[k].obj, keys[1..], v);
    }
  }

  /** Merging a configuration over itself changes nothing. */
  lemma {:induction false} MergeSelf(d: map<string, Json>)
    ensures Merge(d, d) == d
    decreases JObj(d)
  {
    forall k | k in d ensures Merge(d, d)[k] == d[k] {
      if d[k].JObj? {
        MergeSelf(d[k].obj);
      }
    }
  }

  // ---------------------------------------------------------------------
  // get and set
  // ---------------------------------------------------------------------

  /** `key_path.split('.')`. */
  function Segments(keyPath: string): (r: seq<string>)
    ensures |r| >= 1
  {
    Strings.Split(keyPath, '.')
  }

  /**
   * Where `set` puts `value`: missing intermediate segments become empty
   * dicts; `None` when an existing intermediate value is not a dict (the
   * source then raises TypeError before changing anything).
   */
  function SetPath(m: map<string, Json>, keys: seq<string>, value: Json): (r: Option<map<string, Json>>)
    requires |keys| >= 1
    ensures r.Some? ==> r.value.Keys == m.Keys + {keys[0]}
    ensures r.Some? ==> forall k :: k in m && k != keys[0] ==> r.value[k] == m[k]
    decreases |keys|
  {
    if |keys| == 1 then Some(m[keys[0] := value])
    else
      var child := if keys[0] in m then m[keys[0]] else JObj(map[]);
      if !child.JObj? then None
      else match SetPath(child.obj, keys[1..], value)
        case None => None
        case Some(c) => Some(m[keys[0] := JObj(c)])
  }

  /** After a `set` that succeeds, a `get` of the same path returns the value. */
  lemma {:induction false} GetAfterSet(m: map<string, Json>, keys: seq<string>, value: Json)
    requires |keys| >= 1 && SetPath(m, keys, value).Some?
    ensures Lookup(JObj(SetPath(m, keys, value).value), keys) == Some(value)
    decreases |keys|
  {
    if |keys| > 1 {
      var child := if keys[0] in m then m[keys[0]] else JObj(map[]);
      GetAfterSet(child.obj, keys[1..], value);
    }
  }

  /**
   * A `set` leaves every path that leaves its path before the last
   * segment (a sibling at some level) as it was.
   */
  lemma {:induction false} SetKeepsSiblings(m: map<string, Json>, keys: seq<string>, value: Json, other: seq<string>, i: nat)
    requires |keys| >= 1 && SetPath(m, keys, value).Some?
    requires i < |keys| && i < |other| && other[..i] == keys[..i] && other[i] != keys[i]
    ensures Lookup(JObj(SetPath(m, keys, value).value), other) == Lookup(JObj(m), other)
    decreases i
  {
    var r := SetPath(m, keys, value).value;
    if i > 0 {
      assert other[0] == keys[0];
      var child := if keys[0] in m then m[keys[0]] else JObj(map[]);
      assert |keys| > 1;
      PrefixTail(other, keys, i);
      SetKeepsSiblings(child.obj, keys[1..], value, other[1..], i - 1);
      if keys[0] !in m {
        MissingStaysMissing(keys[1..], value, other[1..], i - 1);
      }
    }
  }

  /** In a freshly created dict only the set path exists. */
  lemma {:induction false} MissingStaysMissing(keys: seq<string>, value: Json, other: seq<string>, i: nat)
    requires |keys| >= 1 && SetPath(map[], keys, value).Some?
    requires i < |keys| && i < |other| && other[..i] == keys[..i] && other[i] != keys[i]
    ensures Lookup(JObj(SetPath(map[], keys, value).value), other) == None
    decreases i
  {
    if i > 0 {
      PrefixTail(other, keys, i);
      MissingStaysMissing(keys[1..], value, other[1..], i - 1);
    }
  }

  /** Two paths that agree on their first `i` segments agree on the next `i - 1` after the first. */
  lemma {:induction false} PrefixTail(a: seq<string>, b: seq<string>, i: nat)
    requires 0 < i <= |a| && i <= |b| && a[..i] == b[..i]
    ensures a[1..][..i - 1] == b[1..][..i - 1]
  {
    var ta, tb := a[1..][..i - 1], b[1..][..i - 1];
    forall k | 0 <= k < i - 1 ensures ta[k] == tb[k] {
      assert a[k + 1] == a[..i][k + 1] == b[..i][k + 1] == b[k + 1];
    }
  }

  /** `set` fails exactly when some proper prefix of the path holds a value that is not a dict. */
  lemma {:induction false} SetFailsIffNonDictPrefix(m: map<string, Json>, keys: seq<string>, value: Json)
    requires |keys| >= 1
    ensures SetPath(m, keys, value).None? <==>
            exists i :: 1 <= i < |keys| && Lookup(JObj(m), keys[..i]).Some? && !Lookup(JObj(m), keys[..i]).value.JObj?
    decreases |keys|
  {
    if |keys| > 1 {
      var k := keys[0];
      if k in m && !m[k].JObj? {
        assert Lookup(JObj(m), keys[..1]) == Some(m[k]);
      } else if k in m {
        SetFailsIffNonDictPrefix(m[k].obj, keys[1..], value);
        if SetPath(m, keys, value).None? {
          var j :| 1 <= j < |keys[1..]| && Lookup(m[k], keys[1..][..j]).Some? && !Lookup(m[k], keys[1..][..j]).value.JObj?;
          assert keys[..j + 1][1..] == keys[1..][..j];
        } else {
          forall i | 1 <= i < |keys| && Lookup(JObj(m), keys[..i]).Some?
            ensures Lookup(JObj(m), keys[..i]).value.JObj?
          {
            if i > 1 {
              assert keys[..i][1..] == keys[1..][..i - 1];
            }
          }
        }
      } else {
        NoFailureInFresh(keys[1..], value);
        forall i | 1 <= i < |keys| ensures Lookup(JObj(m), keys[..i]).None? {
        }
      }
    }
  }

  lemma {:induction false} NoFailureInFresh(keys: seq<string>, value: Json)
    requires |keys| >= 1
    ensures SetPath(map[], keys, value).Some?
    decreases |keys|
  {
    if |keys| > 1 {
      NoFailureInFresh(keys[1..], value);
    }
  }

  /** The dicts passed on the way down, re-linked bottom-up around a new innermost dict. */
  function Relink(parents: seq<map<string, Json>>, keys: seq<string>, inner: Option<map<string, Json>>): Option<map<string, Json>>
    requires |keys| == |parents|
  {
    if parents == [] then inner
    else match Relink(parents[1..], keys[1..], inner)
      case None => None
      case Some(c) => Some(parents[0][keys[0] := JObj(c)])
  }

  lemma {:induction false} RelinkSnoc(parents: seq<map<string, Json>>, keys: seq<string>, m: map<string, Json>, k: string, inner: Option<map<string, Json>>)
    requires |keys| == |parents|
    ensures Relink(parents + [m], keys + [k], inner)
         == Relink(parents, keys, match inner case None => None case Some(c) => Some(m[k := JObj(c)]))
    decreases |parents|
  {
    if parents != [] {
      assert (parents + [m])[1..] == parents[1..] + [m];
      assert (keys + [k])[1..] == keys[1..] + [k];
      RelinkSnoc(parents[1..], keys[1..], m, k, inner);
    }
  }

  /** `RelinkSnoc` for the dicts collected along the first `i` segments of a path. */
  lemma {:induction false} RelinkDeeper(parents: seq<map<string, Json>>, keys: seq<string>, i: nat, m: map<string, Json>, inner: Option<map<string, Json>>)
    requires i < |keys| && |parents| == i
    ensures Relink(parents + [m], keys[..i + 1], inner)
         == Relink(parents, keys[..i], match inner case None => None case Some(c) => Some(m[keys[i] := JObj(c)]))
  {
    assert keys[..i] + [keys[i]] == keys[..i + 1];
    RelinkSnoc(parents, keys[..i], m, keys[i], inner);
  }

  lemma {:induction false} RelinkNone(parents: seq<map<string, Json>>, keys: seq<string>)
    requires |keys| == |parents|
    ensures Relink(parents, keys, None) == None
    decreases |parents|
  {
    if parents != [] {
      RelinkNone(parents[1..], keys[1..]);
    }
  }

  /**
   * The walk of `set`: descend through the intermediate segments, creating
   * empty dicts for missing ones, then assign the leaf and re-link the dicts
   * on the way back up.
   */
  method SetIn(m: map<string, Json>, keys: seq<string>, value: Json) returns (r: Option<map<string, Json>>)
    requires |keys| >= 1
    ensures r == SetPath(m, keys, value)
  {
    var parents, leaf, ok := Descend(m, keys, value);
    if !ok {
      return None;
    }
    var acc := RelinkUp(parents, keys[..|keys| - 1], leaf[keys[|keys| - 1] := value]);
    r := Some(acc);
  }

  /**
   * The first half of `set`: walk the intermediate segments, collecting the
   * dicts passed, until the dict that receives the last segment; fails on a
   * segment that holds something other than a dict.
   */
  method Descend(m: map<string, Json>, keys: seq<string>, value: Json)
    returns (parents: seq<map<string, Json>>, current: map<string, Json>, ok: bool)
    requires |keys| >= 1
    ensures ok ==> |parents| == |keys| - 1
    ensures ok ==> SetPath(m, keys, value) == Relink(parents, keys[..|keys| - 1], Some(current[keys[|keys| - 1] := value]))
    ensures !ok ==> SetPath(m, keys, value).None?
  {
    parents := [];
    current := m;
    var i := 0;
    while i < |keys| - 1
      invariant 0 <= i <= |keys| - 1 && |parents| == i
      invariant SetPath(m, keys, value) == Relink(parents, keys[..i], SetPath(current, keys[i..], value))
    {
      var child := if keys[i] in current then current[keys[i]] else JObj(map[]);
      DescendStep(m, keys, value, parents, current, i);
      if !child.JObj? {
        return parents, current, false;
      }
      parents := parents + [current];
      current := child.obj;
      i := i + 1;
    }
    assert keys[i..] == [keys[i]];
    ok := true;
  }

  /** One turn of `Descend`'s loop: its invariant one segment further down, or the failure. */
  lemma {:induction false} DescendStep(m: map<string, Json>, keys: seq<string>, value: Json,
                                       parents: seq<map<string, Json>>, current: map<string, Json>, i: nat)
    requires i < |keys| - 1 && |parents| == i
    requires SetPath(m, keys, value) == Relink(parents, keys[..i], SetPath(current, keys[i..], value))
    ensures var child := if keys[i] in current then current[keys[i]] else JObj(map[]);
      !child.JObj? ==> SetPath(m, keys, value).None?
    ensures var child := if keys[i] in current then current[keys[i]] else JObj(map[]);
      child.JObj? ==> SetPath(m, keys, value) == Relink(parents + [current], keys[..i + 1], SetPath(child.obj, keys[i + 1..], value))
  {
    var child := if keys[i] in current then current[keys[i]] else JObj(map[]);
    SetPathStep(current, keys[i..], value);
    assert keys[i..][0] == keys[i] && keys[i..][1..] == keys[i + 1..];
    if !child.JObj? {
      RelinkNone(parents, keys[..i]);
    } else {
      RelinkDeeper(parents, keys, i, current, SetPath(child.obj, keys[i + 1..], value));
    }
  }

  /** One level of `set`'s walk, as the definition takes it. */
  lemma {:induction false} SetPathStep(m: map<string, Json>, keys: seq<string>, value: Json)
    requires |keys| >= 2
    ensures var child := if keys[0] in m then m[keys[0]] else JObj(map[]);
      SetPath(m, keys, value) ==
        if !child.JObj? then None
        else match SetPath(child.obj, keys[1..], value)
          case None => None
          case Some(c) => Some(m[keys[0] := JObj(c)])
  {
  }

  /** The second half of `set`: re-link the collected dicts bottom-up around the new innermost dict. */
  method RelinkUp(parents: seq<map<string, Json>>, keys: seq<string>, inner: map<string, Json>)
    returns (acc: map<string, Json>)
    requires |keys| == |parents|
    ensures Relink(parents, keys, Some(inner)) == Some(acc)
  {
    acc := inner;
    var j := |parents|;
    assert parents[..j] == parents && keys[..j] == keys;
    while j > 0
      invariant 0 <= j <= |parents|
      invariant Relink(parents, keys, Some(inner)) == Relink(parents[..j], keys[..j], Some(acc))
    {
      assert parents[..j] == parents[..j - 1] + [parents[j - 1]];
      assert keys[..j] == keys[..j - 1] + [keys[j - 1]];
      RelinkSnoc(parents[..j - 1], keys[..j - 1], parents[j - 1], keys[j - 1], Some(acc));
      acc := parents[j - 1][keys[j - 1] := JObj(acc)];
      j := j - 1;
    }
  }

  /** The store: the configuration dict that `get` reads and `set` changes. */
  class FlatpackConfig {
    var config: map<string, Json>

    constructor (loaded: map<string, Json>)
      ensures config == loaded
    {
      config := loaded;
    }

    /** get: the value at the dotted path, or `default` once a segment is missing or not a dict. */
    method Get(keyPath: string, default: Json) returns (v: Json)
      ensures Lookup(JObj(config), Segments(keyPath)).Some? ==> v == Lookup(JObj(config), Segments(keyPath)).value
      ensures Lookup(JObj(config), Segments(keyPath)).None? ==> v == default
    {
      var keys := Segments(keyPath);
      v := JObj(config);
      var i := 0;
      while i < |keys|
        invariant 0 <= i <= |keys|
        invariant Lookup(JObj(config), keys) == Lookup(v, keys[i..])
      {
        if v.JObj? && keys[i] in v.obj {
          assert keys[i..][1..] == keys[i + 1..];
          v := v.obj[keys[i]];
        } else {
          return default;
        }
        i := i + 1;
      }
    }

    /**
     * set: store `value` at the dotted path and answer what saving the file
     * answers (`saved`); an existing intermediate value that is not a dict
     * raises TypeError and leaves the configuration as it was.
     */
    method Set(keyPath: string, value: Json, saved: bool) returns (r: Result<bool>)
      modifies this
      ensures SetPath(old(config), Segments(keyPath), value).None? ==> r.Err? && config == old(config)
      ensures SetPath(old(config), Segments(keyPath), value).Some? ==>
                r == Ok(saved) && config == SetPath(old(config), Segments(keyPath), value).value
    {
      var updated := SetIn(config, Segments(keyPath), value);
      if updated.None? {
        return Err("TypeError");
      }
      config := updated.value;
      r := Ok(saved);
    }
  }

  // ---------------------------------------------------------------------
  // Distribution detection and the tables it selects
  // ---------------------------------------------------------------------

  /** What reading /etc/os-release gives. */
  datatype OsRelease = Absent | Unreadable | Text(content: string)

  /**
   * detect_cachyos: the os-release markers first (CachyOS before Arch),
   * then the release files; a read error gives up with "unknown".
   */
  function DetectCachyos(osRelease: OsRelease, cachyosRelease: bool, archRelease: bool): (r: string)
    ensures r == "cachyos" || r == "arch" || r == "unknown"
    ensures osRelease.Text? && Strings.Contains(osRelease.content, "ID=cachyos") ==> r == "cachyos"
    ensures osRelease.Unreadable? ==> r == "unknown"
    ensures r == "arch" ==> !cachyosRelease || (osRelease.Text? && !Strings.Contains(osRelease.content, "ID=cachyos"))
    ensures (osRelease.Text? && !Strings.Contains(osRelease.content, "ID=cachyos")
             && (Strings.Contains(osRelease.content, "ID_LIKE=arch") || Strings.Contains(osRelease.content, "ID=arch")))
            ==> r == "arch"
    ensures osRelease.Absent? || (osRelease.Text? && !ArchFamilyMarked(osRelease.content)) ==>
              r == (if cachyosRelease then "cachyos" else if archRelease then "arch" else "unknown")
  {
    match osRelease
    case Unreadable => "unknown"
    case Text(c) =>
      if Strings.Contains(c, "ID=cachyos") then "cachyos"
      else if Strings.Contains(c, "ID_LIKE=arch") || Strings.Contains(c, "ID=arch") then "arch"
      else ReleaseFiles(cachyosRelease, archRelease)
    case Absent => ReleaseFiles(cachyosRelease, archRelease)
  }

  /** The os-release text carries one of the three markers detect_cachyos looks for. */
  predicate ArchFamilyMarked(content: string) {
    Strings.Contains(content, "ID=cachyos") || Strings.Contains(content, "ID_LIKE=arch") || Strings.Contains(content, "ID=arch")
  }

  function ReleaseFiles(cachyosRelease: bool, archRelease: bool): string {
    if cachyosRelease then "cachyos" else if archRelease then "arch" else "unknown"
  }

  const FlagKeys: set<string> := {"install", "update", "parallel_downloads", "use_color"}

  /** get_optimal_pacman_flags. */
  function PacmanFlags(distro: string): (r: map<string, string>)
    ensures r.Keys == FlagKeys
    ensures r["parallel_downloads"] == (if distro == "cachyos" then "5" else if distro == "arch" then "3" else "1")
    ensures distro == "cachyos" || distro == "arch" ==>
              r["install"] == "--needed --noconfirm" && r["update"] == "--noconfirm" && r["use_color"] == "auto"
    ensures distro != "cachyos" && distro != "arch" ==>
              r["install"] == "--needed" && r["update"] == "" && r["use_color"] == "never"
  {
    if distro == "cachyos" then
      map["install" := "--needed --noconfirm", "update" := "--noconfirm", "parallel_downloads" := "5", "use_color" := "auto"]
    else if distro == "arch" then
      map["install" := "--needed --noconfirm", "update" := "--noconfirm", "parallel_downloads" := "3", "use_color" := "auto"]
    else
      map["install" := "--needed", "update" := "", "parallel_downloads" := "1", "use_color" := "never"]
  }

  /** Only the Arch family runs pacman without prompting. */
  lemma {:induction false} NoConfirmOnlyOnArchFamily(distro: string)
    ensures Strings.Contains(PacmanFlags(distro)["install"], "--noconfirm") <==> distro == "cachyos" || distro == "arch"
  {
    var flags := PacmanFlags(distro)["install"];
    if distro == "cachyos" || distro == "arch" {
      Strings.ContainsAt(flags, "--noconfirm", 9);
    } else {
      Strings.ShorterNotContains(flags, "--noconfirm");
    }
  }

  function StrList(xs: seq<string>): Json {
    JList(seq(|xs|, i requires 0 <= i < |xs| => JStr(xs[i])))
  }

  const PerformancePackages: seq<string> := ["cachyos-kernel-manager", "ananicy-cpp", "preload", "irqbalance", "thermald"]
  const RecommendedFlatpaks: seq<string> :=
    ["org.freedesktop.Platform.ffmpeg-full", "org.freedesktop.Platform.openh264", "com.github.tchx84.Flatseal"]

  /** `self.get('distro_info.is_cachyos', False)` is truthy. */
  predicate MarkedCachyos(config: map<string, Json>) {
    Lookup(JObj(config), ["distro_info", "is_cachyos"]).Some?
    && Truthy(Lookup(JObj(config), ["distro_info", "is_cachyos"]).value)
  }

  /** get_cachyos_optimizations: the fixed table, or `{}` unless `distro_info.is_cachyos` is truthy. */
  function CachyosOptimizations(config: map<string, Json>): (r: map<string, Json>)
    ensures !MarkedCachyos(config) ==> r == map[]
    ensures MarkedCachyos(config) ==>
              r.Keys == {"enable_chaotic_aur", "use_cachyos_kernels", "performance_packages", "optimization_flags", "recommended_flatpaks"}
              && r["enable_chaotic_aur"] == JBool(true) && r["use_cachyos_kernels"] == JBool(true)
              && r["performance_packages"] == StrList(PerformancePackages)
              && r["optimization_flags"] == JObj(map["march" := JStr("native"), "mtune" := JStr("native"), "lto" := JStr("full")])
              && r["recommended_flatpaks"] == StrList(RecommendedFlatpaks)
  {
    var flag := match Lookup(JObj(config), ["distro_info", "is_cachyos"]) case None => JBool(false) case Some(v) => v;
    if !Truthy(flag) then map[]
    else map[
      "enable_chaotic_aur" := JBool(true),
      "use_cachyos_kernels" := JBool(true),
      "performance_packages" := StrList(PerformancePackages),
      "optimization_flags" := JObj(map["march" := JStr("native"), "mtune" := JStr("native"), "lto" := JStr("full")]),
      "recommended_flatpaks" := StrList(RecommendedFlatpaks)]
  }
}
