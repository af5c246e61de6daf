/**
 * Image paths of the faction, building and gear icons, and the preloader that
 * requests each image once. Creating an `Image` is recorded in a log of
 * requested sources, not performed.
 */
module AssetPaths {

  import opened Strings
  import opened Factions

  const FactionIconDir: string := "/images/faction_buttons_square"
  const MainBaseIconDir: string := "/images/mainbase_icons"
  const GearIconDir: string := "/images/gear"

  /** `getFactionIconPath`. */
  function FactionIconPath(f: Faction): (p: string)
    ensures |p| == |FactionIconDir + "/"| + |Label(f)| + |".png"|
    ensures StartsWith(p, FactionIconDir + "/") && EndsWith(p, ".png")
    ensures p[|FactionIconDir + "/"|..|p| - |".png"|] == Label(f)
  {
    var p := FactionIconDir + "/" + Label(f) + ".png";
    assert p[..|FactionIconDir + "/"|] == FactionIconDir + "/";
    assert p[|p| - 4..] == ".png";
    assert p[|FactionIconDir + "/"|..|p| - |".png"|] == Label(f);
    p
  }

  /** Distinct factions have distinct icons. */
  lemma FactionIconPathInjective(f: Faction, g: Faction)
    requires FactionIconPath(f) == FactionIconPath(g)
    ensures f == g
  {
    LabelInjective(f, g);
  }

  predicate IsUpperAscii(c: char) {
    'A' <= c <= 'Z'
  }

  /** `toLowerCase` on ASCII letters. */
  function LowerAscii(c: char): (d: char)
    ensures !IsUpperAscii(d)
    ensures !IsUpperAscii(c) ==> d == c
  {
    if IsUpperAscii(c) then (c as int - 'A' as int + 'a' as int) as char else c
  }

  /** `toLowerCase().replace(/ /g, "_")`, one character at a time. */
  function SlugChar(c: char): (d: char)
    ensures d != ' ' && !IsUpperAscii(d)
    ensures c != ' ' ==> d == LowerAscii(c)
  {
    var l := LowerAscii(c);
    if l == ' ' then '_' else l
  }

  function Slug(name: string): (s: string)
    ensures |s| == |name|
    ensures forall i :: 0 <= i < |s| ==> s[i] != ' ' && !IsUpperAscii(s[i])
    ensures forall i :: 0 <= i < |s| ==> (name[i] == ' ' ==> s[i] == '_') && (name[i] != ' ' ==> s[i] == LowerAscii(name[i]))
  {
    seq(|name|, i requires 0 <= i < |name| => SlugChar(name[i]))
  }

  /** A slug is its own slug. */
  lemma SlugIdempotent(name: string)
    ensures Slug(Slug(name)) == Slug(name)
  {
  }

  /** `getBuildingIconPath`: the slug of the name in the main-base icon directory. */
  function BuildingIconPath(buildingName: string): (p: string)
    ensures |p| == |MainBaseIconDir + "/"| + |buildingName| + |".png"|
    ensures StartsWith(p, MainBaseIconDir + "/") && EndsWith(p, ".png")
    ensures p[|MainBaseIconDir + "/"|..|p| - |".png"|] == Slug(buildingName)
  {
    var p := MainBaseIconDir + "/" + Slug(buildingName) + ".png";
    assert p[..|MainBaseIconDir + "/"|] == MainBaseIconDir + "/";
    assert p[|p| - 4..] == ".png";
    assert p[|MainBaseIconDir + "/"|..|p| - |".png"|] == Slug(buildingName);
    p
  }

  /** `getGearIconPath`. */
  function GearIconPath(imageFileName: string): (p: string)
    ensures StartsWith(p, GearIconDir + "/") && p[|GearIconDir + "/"|..] == imageFileName
  {
    var p := GearIconDir + "/" + imageFileName;
    assert p[..|GearIconDir + "/"|] == GearIconDir + "/";
    p
  }

  predicate NoDuplicates(s: seq<string>) {
    forall i, j :: 0 <= i < j < |s| ==> s[i] != s[j]
  }

  /** The index of the first occurrence of `x` in `s`. */
  function FirstIndex(s: seq<string>, x: string): (k: nat)
    requires x in s
    ensures k < |s| && s[k] == x
    ensures forall j :: 0 <= j < k ==> s[j] != x
  {
    if s[0] == x then 0 else 1 + FirstIndex(s[1..], x)
  }

  /** Appending to a sequence moves no first occurrence of what it held. */
  lemma FirstIndexSnoc(s: seq<string>, x: string, y: string)
    requires y in s
    ensures y in s + [x] && FirstIndex(s + [x], y) == FirstIndex(s, y)
  {
    assert (s + [x])[FirstIndex(s, y)] == y;
  }

  /** `new Set(images)`, iterated in insertion order: first occurrences only. */
  function Distinct(s: seq<string>): (r: seq<string>)
    ensures NoDuplicates(r)
    ensures forall x :: x in r <==> x in s
    ensures forall i, j :: 0 <= i < j < |r| ==> FirstIndex(s, r[i]) < FirstIndex(s, r[j])
  {
    if s == [] then []
    else
      var prefix := s[..|s| - 1];
      var x := s[|s| - 1];
      var init := Distinct(prefix);
      assert s == prefix + [x];
      assert forall y :: y in s <==> y in prefix || y == x;
      forall y | y in prefix ensures FirstIndex(s, y) == FirstIndex(prefix, y) {
        FirstIndexSnoc(prefix, x, y);
      }
      if x in init then init
      else
        assert FirstIndex(s, x) == |s| - 1;
        init + [x]
  }

  /** The module's `preloadedImages` set, with the log of images it requested. */
  class ImagePreloader {
    var preloaded: set<string>
    /** Sources handed to `new Image()`, in order. */
    var loads: seq<string>

    ghost predicate Valid()
      reads this
    {
      NoDuplicates(loads) && forall x :: x in preloaded <==> x in loads
    }

    constructor ()
      ensures preloaded == {} && loads == []
      ensures Valid()
    {
      preloaded := {};
      loads := [];
    }

    /** `isImagePreloaded`: in a valid preloader, exactly the images requested so far. */
    predicate IsImagePreloaded(src: string)
      reads this
      ensures Valid() ==> (IsImagePreloaded(src) <==> src in loads)
    {
      src in preloaded
    }

    /** `preloadImage`: request `src` unless it was requested before. */
    method PreloadImage(src: string)
      requires Valid()
      modifies this
      ensures Valid()
      ensures preloaded == old(preloaded) + {src}
      ensures loads == if src in old(preloaded) then old(loads) else old(loads) + [src]
      ensures IsImagePreloaded(src)
    {
      if src in preloaded {
        return;
      }
      preloaded := preloaded + {src};
      loads := loads + [src];
    }

    /** One `forEach` of `initPreload`: preload each source in turn. */
    method PreloadEach(srcs: seq<string>)
      requires Valid()
      modifies this
      ensures Valid()
      ensures preloaded == old(preloaded) + set x | x in srcs
      ensures |loads| >= |old(loads)| && loads[..|old(loads)|] == old(loads)
    {
      ghost var start := preloaded;
      ghost var log := loads;
      for i := 0 to |srcs|
        invariant Valid()
        invariant preloaded == start + set x | x in srcs[..i]
        invariant |loads| >= |log| && loads[..|log|] == log
      {
        PreloadImage(srcs[i]);
        assert srcs[..i + 1] == srcs[..i] + [srcs[i]];
      }
      assert srcs[..|srcs|] == srcs;
    }

    /**
     * `initPreload` over the catalogs it reads: every faction icon, every
     * building icon, and each distinct gear image once.
     */
    method InitPreload(buildingNames: seq<string>, gearImages: seq<string>)
      requires Valid()
      modifies this
      ensures Valid()
      ensures preloaded == old(preloaded) + set x | x in PreloadSources(buildingNames, gearImages)
      ensures |loads| >= |old(loads)| && loads[..|old(loads)|] == old(loads)
    {
      ghost var start := preloaded;
      ghost var log := loads;
      PreloadEach(FactionIcons());
      ghost var afterFactions := preloaded;
      ghost var log1 := loads;
      PreloadEach(BuildingIcons(buildingNames));
      ghost var afterBuildings := preloaded;
      ghost var log2 := loads;
      PreloadEach(GearIcons(Distinct(gearImages)));
      assert loads[..|log2|] == log2 && log2[..|log1|] == log1 && log1[..|log|] == log;
      assert loads[..|log|] == log;
      SourcesSet(buildingNames, gearImages);
    }
  }

  function FactionIcons(): seq<string> {
    seq(|FactionLabels()|, i requires 0 <= i < |FactionLabels()| => FactionIconPath(FactionLabels()[i]))
  }

  function BuildingIcons(names: seq<string>): seq<string> {
    seq(|names|, i requires 0 <= i < |names| => BuildingIconPath(names[i]))
  }

  function GearIcons(images: seq<string>): seq<string> {
    seq(|images|, i requires 0 <= i < |images| => GearIconPath(images[i]))
  }

  /** The sources `initPreload` requests, in order. */
  function PreloadSources(buildingNames: seq<string>, gearImages: seq<string>): seq<string> {
    FactionIcons() + BuildingIcons(buildingNames) + GearIcons(Distinct(gearImages))
  }

  lemma SourcesSet(buildingNames: seq<string>, gearImages: seq<string>)
    ensures (set x | x in PreloadSources(buildingNames, gearImages)) ==
            (set x | x in FactionIcons()) + (set x | x in BuildingIcons(buildingNames)) +
            (set x | x in GearIcons(Distinct(gearImages)))
  {
  }

  /** `initPreload` requests every faction icon, every building icon and every gear image. */
  lemma PreloadSourcesCover(buildingNames: seq<string>, gearImages: seq<string>)
    ensures forall f :: FactionIconPath(f) in PreloadSources(buildingNames, gearImages)
    ensures forall n :: n in buildingNames ==> BuildingIconPath(n) in PreloadSources(buildingNames, gearImages)
    ensures forall g :: g in gearImages ==> GearIconPath(g) in PreloadSources(buildingNames, gearImages)
  {
    var all := PreloadSources(buildingNames, gearImages);
    forall f
      ensures FactionIconPath(f) in all
    {
      assert f in FactionLabels();
      var i :| 0 <= i < |FactionLabels()| && FactionLabels()[i] == f;
      assert FactionIcons()[i] == FactionIconPath(f);
    }
    forall n | n in buildingNames
      ensures BuildingIconPath(n) in all
    {
      var i :| 0 <= i < |buildingNames| && buildingNames[i] == n;
      assert BuildingIcons(buildingNames)[i] == BuildingIconPath(n);
    }
    var unique := Distinct(gearImages);
    forall g | g in gearImages
      ensures GearIconPath(g) in all
    {
      assert g in unique;
      var i :| 0 <= i < |unique| && unique[i] == g;
      assert GearIcons(unique)[i] == GearIconPath(g);
    }
  }

  /** Each gear image is requested once, however many gear items share it. */
  lemma GearIconsDistinct(gearImages: seq<string>)
    ensures NoDuplicates(GearIcons(Distinct(gearImages)))
  {
    var unique := Distinct(gearImages);
    forall i, j | 0 <= i < j < |unique|
      ensures GearIcons(unique)[i] != GearIcons(unique)[j]
    {
      var p, q := GearIconPath(unique[i]), GearIconPath(unique[j]);
      assert p[|GearIconDir + "/"|..] == unique[i];
      assert q[|GearIconDir + "/"|..] == unique[j];
    }
  }
}
