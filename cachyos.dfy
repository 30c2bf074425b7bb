/**
 * The CachyOS recommendation tables and the two lookups over them: the
 * package lists by category, and the Flatpak lists by category or, without
 * a known category, every Flatpak of every category once.
 *
 * A Python dict is an association list in insertion order with distinct
 * keys. The lookups take the table as a parameter; the module's constants
 * `PackageCategories` and `CachyosFlatpaks` are the tables the program uses.
 */
module Cachyos {
  import opened Wrappers

  datatype Category = Category(name: string, description: string, packages: seq<string>)

  /** A dict with string keys, in insertion order. */
  type Table<T> = seq<(string, T)>

  function Keys<T>(table: Table<T>): (r: seq<string>)
    ensures |r| == |table|
    ensures forall i :: 0 <= i < |table| ==> r[i] == table[i].0
  {
    seq(|table|, i requires 0 <= i < |table| => table[i].0)
  }

  predicate Distinct(keys: seq<string>) {
    forall i, j :: 0 <= i < j < |keys| ==> keys[i] != keys[j]
  }

  /** `table.get(key)`. */
  function Find<T>(table: Table<T>, key: string): (r: Option<T>)
    ensures r.None? <==> key !in Keys(table)
  {
    if table == [] then None
    else if table[0].0 == key then Some(table[0].1)
    else Find(table[1..], key)
  }

  /** With distinct keys, `table[key]` is the value stored under the key. */
  lemma {:induction false} FindAt<T>(table: Table<T>, i: nat)
    requires Distinct(Keys(table)) && i < |table|
    ensures Find(table, table[i].0) == Some(table[i].1)
  {
    if i > 0 {
      assert Keys(table)[0] != Keys(table)[i];
      assert Distinct(Keys(table[1..])) by {
        forall a, b | 0 <= a < b < |table| - 1
          ensures Keys(table[1..])[a] != Keys(table[1..])[b]
        {
          assert Keys(table)[a + 1] != Keys(table)[b + 1];
        }
      }
      FindAt(table[1..], i - 1);
    }
  }

  /** `category and category in table`: None and "" are falsy. */
  predicate Known<T>(table: Table<T>, category: Option<string>) {
    category.Some? && category.value != "" && Find(table, category.value).Some?
  }

  // ---------------------------------------------------------------------
  // get_cachyos_package_recommendations
  // ---------------------------------------------------------------------

  /** Every category mapped to its package list, in table order. */
  function AllPackages(categories: Table<Category>): (r: Table<seq<string>>)
    ensures Keys(r) == Keys(categories)
    ensures forall i :: 0 <= i < |r| ==> r[i].1 == categories[i].1.packages
  {
    seq(|categories|, i requires 0 <= i < |categories| => (categories[i].0, categories[i].1.packages))
  }

  /**
   * A known category gives a one-entry dict holding its package list;
   * anything else gives every category's package list.
   */
  function PackageRecommendations(categories: Table<Category>, category: Option<string>): (r: Table<seq<string>>)
    ensures Known(categories, category) ==>
      Keys(r) == [category.value] && r[0].1 == Find(categories, category.value).value.packages
    ensures !Known(categories, category) ==> Keys(r) == Keys(categories)
    ensures forall k :: Find(r, k).Some? ==>
      Find(categories, k).Some? && Find(r, k).value == Find(categories, k).value.packages
  {
    if Known(categories, category) then
      [(category.value, Find(categories, category.value).value.packages)]
    else
      var all := AllPackages(categories);
      FindAll(categories, all);
      all
  }

  /** Lookups in the all-categories dict agree with lookups in the table. */
  lemma {:induction false} FindAll(categories: Table<Category>, all: Table<seq<string>>)
    requires all == AllPackages(categories)
    ensures forall k :: Find(all, k).Some? ==>
      Find(categories, k).Some? && Find(all, k).value == Find(categories, k).value.packages
    decreases |categories|
  {
    if categories != [] {
      assert all[1..] == AllPackages(categories[1..]);
      FindAll(categories[1..], all[1..]);
    }
  }

  /** Without a known category, every category of the table can be looked up in the result. */
  lemma {:induction false} PackageRecommendationsCover(categories: Table<Category>, category: Option<string>, k: string)
    requires !Known(categories, category)
    ensures Find(PackageRecommendations(categories, category), k).Some? <==> Find(categories, k).Some?
  {
  }

  // ---------------------------------------------------------------------
  // get_cachyos_flatpak_recommendations
  // ---------------------------------------------------------------------

  /** The lists of a table joined in order, as the `extend` loop builds them. */
  function Flattened(table: Table<seq<string>>): (r: seq<string>)
    decreases |table|
  {
    if table == [] then [] else Flattened(table[..|table| - 1]) + table[|table| - 1].1
  }

  /** An id is in the joined lists iff some category lists it. */
  lemma {:induction false} FlattenedMembers(table: Table<seq<string>>, x: string)
    ensures x in Flattened(table) <==> exists i :: 0 <= i < |table| && x in table[i].1
    decreases |table|
  {
    if table != [] {
      var front := table[..|table| - 1];
      FlattenedMembers(front, x);
      if x in Flattened(front) {
        var i :| 0 <= i < |front| && x in front[i].1;
        assert table[i] == front[i];
      }
      if exists i :: 0 <= i < |table| && x in table[i].1 {
        var i :| 0 <= i < |table| && x in table[i].1;
        if i < |front| {
          assert front[i] == table[i];
        }
      }
    }
  }

  /** `list(set(s))`, keeping each element's first occurrence. */
  function Dedup(s: seq<string>): (r: seq<string>)
    ensures forall x :: x in r <==> x in s
    ensures Distinct(r)
    decreases |s|
  {
    if s == [] then []
    else
      var r := Dedup(s[..|s| - 1]);
      if s[|s| - 1] in r then r else r + [s[|s| - 1]]
  }

  /**
   * A known category gives that category's list; anything else gives every
   * Flatpak listed under any category, each exactly once.
   */
  method FlatpakRecommendations(flatpaks: Table<seq<string>>, category: Option<string>) returns (r: seq<string>)
    ensures Known(flatpaks, category) ==> r == Find(flatpaks, category.value).value
    ensures !Known(flatpaks, category) ==> r == Dedup(Flattened(flatpaks))
  {
    if Known(flatpaks, category) {
      return Find(flatpaks, category.value).value;
    }
    var all: seq<string> := [];
    var i := 0;
    while i < |flatpaks|
      invariant 0 <= i <= |flatpaks|
      invariant all == Flattened(flatpaks[..i])
    {
      assert flatpaks[..i + 1][..i] == flatpaks[..i];
      all := all + flatpaks[i].1;
      i := i + 1;
    }
    assert flatpaks[..i] == flatpaks;
    r := Dedup(all);
  }

  /** Without a known category: every listed id, nothing else, and no id twice. */
  lemma {:induction false} AllFlatpaks(flatpaks: Table<seq<string>>, x: string)
    ensures x in Dedup(Flattened(flatpaks)) <==> exists i :: 0 <= i < |flatpaks| && x in flatpaks[i].1
    ensures Distinct(Dedup(Flattened(flatpaks)))
  {
    FlattenedMembers(flatpaks, x);
  }

  // ---------------------------------------------------------------------
  // The program's tables
  // ---------------------------------------------------------------------

  const PackageCategories: Table<Category> := [
    ("performance", Category("Performance Optimization",
      "CachyOS performance and optimization packages",
      ["cachyos-kernel-manager", "ananicy-cpp", "preload", "irqbalance", "thermald",
       "cpupower", "powertop", "auto-cpufreq", "zram-generator", "systemd-swap"])),
    ("cachyos_tools", Category("CachyOS Tools",
      "CachyOS-specific utilities and tools",
      ["cachyos-hello", "cachyos-fish-config", "cachyos-zsh-config", "cachyos-settings",
       "rate-mirrors", "paru", "yay"])),
    ("gaming_enhanced", Category("Enhanced Gaming Support",
      "Gaming packages optimized for CachyOS performance",
      ["steam", "lutris", "heroic-games-launcher-bin", "bottles", "wine-staging",
       "wine-gecko", "wine-mono", "winetricks", "dxvk-bin", "vkd3d", "lib32-mesa",
       "lib32-vulkan-radeon", "lib32-vulkan-intel", "lib32-nvidia-utils", "gamemode",
       "gamemoderun", "mangohud"])),
    ("media_codecs_enhanced", Category("Enhanced Media Support",
      "Comprehensive media codecs and tools for CachyOS",
      ["ffmpeg", "ffmpeg-amd-full", "gstreamer", "gst-plugins-base", "gst-plugins-good",
       "gst-plugins-bad", "gst-plugins-ugly", "gst-libav", "libavcodec-full", "x264",
       "x265", "libvpx", "opus", "lame", "flac", "wavpack"])),
    ("development_enhanced", Category("Enhanced Development Tools",
      "Development packages with CachyOS optimizations",
      ["git", "base-devel", "python", "python-pip", "nodejs", "npm", "rust", "go", "gcc",
       "clang", "llvm", "cmake", "meson", "ninja", "docker", "podman", "code",
       "sublime-text-4"])),
    ("system_enhanced", Category("Enhanced System Utilities",
      "System tools optimized for CachyOS",
      ["curl", "wget", "aria2", "unzip", "p7zip", "unrar", "htop", "btop", "neofetch",
       "fastfetch", "flatpak", "reflector", "pacman-contrib", "pkgfile", "fzf", "bat",
       "exa", "ripgrep", "fd", "zoxide"]))
  ]

  const CachyosFlatpaks: Table<seq<string>> := [
    ("essential", ["org.freedesktop.Platform.ffmpeg-full", "org.freedesktop.Platform.openh264",
      "com.github.tchx84.Flatseal", "org.freedesktop.Platform.VulkanLayer.MangoHud",
      "org.freedesktop.Platform.VulkanLayer.gamescope"]),
    ("gaming", ["com.heroicgameslauncher.hgl", "net.lutris.Lutris", "com.usebottles.bottles",
      "org.prismlauncher.PrismLauncher", "com.mojang.Minecraft"]),
    ("media", ["org.videolan.VLC", "io.mpv.Mpv", "org.audacityteam.Audacity",
      "org.kde.kdenlive", "com.obsproject.Studio"]),
    ("development", ["com.visualstudio.code", "org.jetbrains.PyCharm-Community",
      "io.github.shiftey.Desktop", "com.getpostman.Postman", "rest.insomnia.Insomnia"])
  ]

  /** Both tables are dicts: no category name repeats, so every category is found. */
  lemma {:induction false} TablesDistinct()
    ensures Distinct(Keys(PackageCategories)) && Distinct(Keys(CachyosFlatpaks))
  {
  }

  /** The Flatpak lookup for "gaming" returns exactly the gaming list. */
  lemma {:induction false} GamingFlatpaks()
    ensures Known(CachyosFlatpaks, Some("gaming"))
    ensures Find(CachyosFlatpaks, "gaming").value == CachyosFlatpaks[1].1
  {
    TablesDistinct();
    FindAt(CachyosFlatpaks, 1);
  }
}
