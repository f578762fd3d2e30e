/**
 * The application's path layout: app_root with config/, assets/maps/ and
 * exports/ below it, and the conversions between paths relative to app_root
 * and absolute ones. Paths follow pathlib's pure-path rules on '/'
 * separators: empty and "." components vanish, a leading '/' makes a path
 * absolute, and joining onto an absolute path replaces the left side.
 */
module PathManager {
  import opened Wrappers
  import opened Text

  /** A parsed pure path: whether it starts at the root, and its components. */
  datatype PurePath = PurePath(rooted: bool, parts: seq<string>)

  /** A component pathlib can hold: not empty, not ".", no separator. */
  predicate Component(c: string) {
    c != "" && c != "." && '/' !in c
  }

  predicate WellFormed(p: PurePath) {
    forall i :: 0 <= i < |p.parts| ==> Component(p.parts[i])
  }

  /** The pieces of a split that pathlib keeps as components. */
  function Clean(pieces: seq<string>): (parts: seq<string>)
    ensures forall c :: c in parts ==> c in pieces && c != "" && c != "."
    decreases |pieces|
  {
    if |pieces| == 0 then []
    else (if pieces[0] == "" || pieces[0] == "." then [] else [pieces[0]]) + Clean(pieces[1..])
  }

  /** Clean keeps a list of proper components as it is. */
  lemma {:induction false} CleanKeeps(pieces: seq<string>)
    requires forall i :: 0 <= i < |pieces| ==> pieces[i] != "" && pieces[i] != "."
    ensures Clean(pieces) == pieces
    decreases |pieces|
  {
    if |pieces| > 0 {
      CleanKeeps(pieces[1..]);
      assert [pieces[0]] + pieces[1..] == pieces;
    }
  }

  /** Path(s). */
  function Parse(s: string): (p: PurePath)
    ensures WellFormed(p)
    ensures p.rooted <==> |s| > 0 && s[0] == '/'
  {
    var pieces := Split(s, '/');
    var parts := Clean(pieces);
    assert forall i :: 0 <= i < |parts| ==> parts[i] in pieces;
    PurePath(|s| > 0 && s[0] == '/', parts)
  }

  /** str(path): "." for the empty relative path. */
  function Render(p: PurePath): string {
    if p.rooted then "/" + Join(p.parts, '/')
    else if |p.parts| == 0 then "."
    else Join(p.parts, '/')
  }

  /** Parsing what str gives returns the same path. */
  lemma ParseRender(p: PurePath)
    requires WellFormed(p)
    ensures Parse(Render(p)) == p
  {
    var s := Render(p);
    if p.rooted {
      SplitCons("", '/', Join(p.parts, '/'));
      assert s == "" + "/" + Join(p.parts, '/');
      if |p.parts| == 0 {
        assert Split(s, '/') == ["", ""];
      } else {
        SplitJoin(p.parts, '/');
        CleanKeeps(p.parts);
        assert Split(s, '/') == [""] + p.parts;
        assert Clean([""] + p.parts) == [] + Clean(p.parts) by {
          assert ([""] + p.parts)[1..] == p.parts;
        }
      }
    } else if |p.parts| == 0 {
      SplitNoSep(".", '/');
    } else {
      SplitJoin(p.parts, '/');
      CleanKeeps(p.parts);
      assert s[0] == p.parts[0][0];
    }
  }

  /** path / other: an absolute right side replaces the left. */
  function Slash(a: PurePath, b: PurePath): PurePath {
    if b.rooted then b else PurePath(a.rooted, a.parts + b.parts)
  }

  /** path.relative_to(base): None where pathlib raises ValueError. */
  function RelativeTo(p: PurePath, base: PurePath): (r: Option<PurePath>)
    ensures r.Some? ==> !r.value.rooted && Slash(base, r.value) == p
    ensures r.None? ==> forall q: PurePath :: !q.rooted ==> Slash(base, q) != p
  {
    if p.rooted == base.rooted && |base.parts| <= |p.parts| && p.parts[..|base.parts|] == base.parts
    then
      var rel := PurePath(false, p.parts[|base.parts|..]);
      assert base.parts + rel.parts == p.parts;
      Some(rel)
    else
      None
  }

  /** str.replace('\\', '/'). */
  function ReplaceBackslash(s: string): (r: string)
    ensures |r| == |s| && '\\' !in r
    ensures '\\' !in s ==> r == s
  {
    seq(|s|, i requires 0 <= i < |s| => if s[i] == '\\' then '/' else s[i])
  }

  /** The directories PathManager derives from app_root. */
  datatype Layout = Layout(appRoot: PurePath)

  function ConfigDir(l: Layout): PurePath { Slash(l.appRoot, Parse("config")) }
  function AssetsDir(l: Layout): PurePath { Slash(l.appRoot, Parse("assets")) }
  function MapsDir(l: Layout): PurePath { Slash(AssetsDir(l), Parse("maps")) }
  function ExportsDir(l: Layout): PurePath { Slash(l.appRoot, Parse("exports")) }

  function GetFilterConfigPath(l: Layout): string { Render(Slash(ConfigDir(l), Parse("filter_config.json"))) }
  function GetMapConfigPath(l: Layout): string { Render(Slash(ConfigDir(l), Parse("map_config.json"))) }
  function GetGlobalConfigPath(l: Layout): string { Render(Slash(ConfigDir(l), Parse("global_config.json"))) }
  function GetMapsDir(l: Layout): string { Render(MapsDir(l)) }
  function GetMapDir(l: Layout, mapId: string): string { Render(Slash(MapsDir(l), Parse(mapId))) }
  function GetExportsDir(l: Layout): string { Render(ExportsDir(l)) }

  /** get_map_image_path: maps_dir / map_id / image_filename. */
  function GetMapImagePath(l: Layout, mapId: string, imageFilename: string): string {
    Render(Slash(Slash(MapsDir(l), Parse(mapId)), Parse(imageFilename)))
  }

  /**
   * get_relative_path: the path below app_root with '/' separators, or the
   * argument itself when it does not lie below app_root.
   */
  function GetRelativePath(l: Layout, absolutePath: string): (r: string)
    ensures RelativeTo(Parse(absolutePath), l.appRoot).None? ==> r == absolutePath
    ensures RelativeTo(Parse(absolutePath), l.appRoot).Some? ==> '\\' !in r
  {
    match RelativeTo(Parse(absolutePath), l.appRoot)
    case Some(rel) => ReplaceBackslash(Render(rel))
    case None => absolutePath
  }

  /** get_absolute_path: an absolute argument as it is, a relative one joined onto app_root. */
  function GetAbsolutePath(l: Layout, relativePath: string): (r: string)
    ensures Parse(relativePath).rooted ==> r == relativePath
    ensures !Parse(relativePath).rooted && l.appRoot.rooted ==> Parse(r).rooted
  {
    if Parse(relativePath).rooted then relativePath
    else
      Render(Slash(l.appRoot, Parse(relativePath)))
  }

  /** A component string parses to itself as a one-component relative path. */
  lemma ParseComponent(c: string)
    requires Component(c)
    ensures Parse(c) == PurePath(false, [c])
  {
    ParseRender(PurePath(false, [c]));
  }

  /** The join of pieces free of some character other than the separator is free of it too. */
  lemma {:induction false} JoinAvoids(pieces: seq<string>, sep: char, c: char)
    requires c != sep
    requires forall i :: 0 <= i < |pieces| ==> c !in pieces[i]
    ensures c !in Join(pieces, sep)
    decreases |pieces|
  {
    if |pieces| > 1 {
      JoinAvoids(pieces[1..], sep, c);
    }
  }

  /** A well-formed path none of whose components holds a backslash. */
  predicate Plain(p: PurePath) {
    WellFormed(p) && forall i :: 0 <= i < |p.parts| ==> '\\' !in p.parts[i]
  }

  lemma RenderPlain(p: PurePath)
    requires Plain(p)
    ensures '\\' !in Render(p)
  {
    JoinAvoids(p.parts, '/', '\\');
  }

  /** A relative path made absolute and then relative again comes back unchanged. */
  lemma RelativeAbsoluteRoundTrip(l: Layout, p: PurePath)
    requires WellFormed(l.appRoot)
    requires Plain(p) && !p.rooted
    ensures GetRelativePath(l, GetAbsolutePath(l, Render(p))) == Render(p)
  {
    ParseRender(p);
    var q := Slash(l.appRoot, p);
    ParseRender(q);
    assert GetAbsolutePath(l, Render(p)) == Render(q);
    assert q.parts[|l.appRoot.parts|..] == p.parts;
    assert RelativeTo(q, l.appRoot) == Some(p);
    RenderPlain(p);
  }

  /**
   * A path below app_root made relative and then absolute again is that path
   * in str(Path(...)) form.
   */
  lemma AbsoluteRelativeRoundTrip(l: Layout, s: string)
    requires RelativeTo(Parse(s), l.appRoot).Some?
    requires Plain(Parse(s))
    ensures GetAbsolutePath(l, GetRelativePath(l, s)) == Render(Parse(s))
  {
    var rel := RelativeTo(Parse(s), l.appRoot).value;
    assert Parse(s).parts == l.appRoot.parts + rel.parts;
    assert Plain(rel) by {
      forall i | 0 <= i < |rel.parts|
        ensures Component(rel.parts[i]) && '\\' !in rel.parts[i]
      {
        assert rel.parts[i] == Parse(s).parts[|l.appRoot.parts| + i];
      }
    }
    RenderPlain(rel);
    ParseRender(rel);
    assert GetRelativePath(l, s) == Render(rel);
  }

  /** The join of four components. */
  lemma JoinFour(a: string, b: string, c: string, d: string)
    ensures Join([a, b, c, d], '/') == a + "/" + b + "/" + c + "/" + d
  {
    assert [c, d][1..] == [d];
    assert Join([c, d], '/') == c + "/" + d;
    assert [b, c, d][1..] == [c, d];
    assert Join([b, c, d], '/') == b + "/" + Join([c, d], '/');
    assert [a, b, c, d][1..] == [b, c, d];
    assert Join([a, b, c, d], '/') == a + "/" + Join([b, c, d], '/');
  }

  /** One component joined below a directory. */
  lemma RenderSnoc(dir: PurePath, a: string)
    requires |dir.parts| > 0
    ensures Render(PurePath(dir.rooted, dir.parts + [a])) == Render(dir) + "/" + a
  {
    var inner := Join(dir.parts, '/');
    JoinAppend(dir.parts, [a], '/');
    assert Join(dir.parts + [a], '/') == inner + "/" + a;
    if dir.rooted {
      assert "/" + (inner + "/" + a) == ("/" + inner) + "/" + a;
    }
  }

  /** Two components joined below a directory. */
  lemma RenderBelow(dir: PurePath, a: string, b: string)
    requires |dir.parts| > 0
    ensures Render(PurePath(dir.rooted, dir.parts + [a, b])) == Render(dir) + "/" + a + "/" + b
  {
    var mid := PurePath(dir.rooted, dir.parts + [a]);
    RenderSnoc(dir, a);
    RenderSnoc(mid, b);
    assert mid.parts + [b] == dir.parts + [a, b];
  }

  /** Four components joined below a directory. */
  lemma RenderBelowFour(dir: PurePath, a: string, b: string, c: string, d: string)
    requires |dir.parts| > 0
    ensures Render(PurePath(dir.rooted, dir.parts + [a, b, c, d]))
         == Render(dir) + "/" + (a + "/" + b + "/" + c + "/" + d)
  {
    JoinAppend(dir.parts, [a, b, c, d], '/');
    JoinFour(a, b, c, d);
  }

  /** app_root/config: one component below app_root. */
  lemma ConfigDirShape(l: Layout)
    ensures ConfigDir(l) == PurePath(l.appRoot.rooted, l.appRoot.parts + ["config"])
  {
    ParseComponent("config");
  }

  /** A file directly in app_root/config. */
  lemma ConfigFile(l: Layout, name: string)
    requires |l.appRoot.parts| > 0 && Component(name)
    ensures Render(Slash(ConfigDir(l), Parse(name))) == Render(l.appRoot) + "/" + "config" + "/" + name
  {
    ConfigDirShape(l);
    ParseComponent(name);
    var dir := ConfigDir(l);
    assert Slash(dir, Parse(name)) == PurePath(dir.rooted, dir.parts + [name]);
    RenderSnoc(l.appRoot, "config");
    RenderSnoc(dir, name);
  }

  /** filter_config.json sits in app_root/config. */
  lemma FilterConfigPath(l: Layout)
    requires |l.appRoot.parts| > 0
    ensures GetFilterConfigPath(l) == Render(l.appRoot) + "/" + "config" + "/" + "filter_config.json"
  {
    ConfigFile(l, "filter_config.json");
  }

  /** map_config.json sits in app_root/config. */
  lemma MapConfigPath(l: Layout)
    requires |l.appRoot.parts| > 0
    ensures GetMapConfigPath(l) == Render(l.appRoot) + "/" + "config" + "/" + "map_config.json"
  {
    ConfigFile(l, "map_config.json");
  }

  /** global_config.json sits in app_root/config. */
  lemma GlobalConfigPath(l: Layout)
    requires |l.appRoot.parts| > 0
    ensures GetGlobalConfigPath(l) == Render(l.appRoot) + "/" + "config" + "/" + "global_config.json"
  {
    ConfigFile(l, "global_config.json");
  }

  /** maps_dir is app_root/assets/maps. */
  lemma MapsDirShape(l: Layout)
    ensures MapsDir(l) == PurePath(l.appRoot.rooted, l.appRoot.parts + ["assets", "maps"])
  {
    ParseComponent("assets");
    ParseComponent("maps");
  }

  /** A map's directory is app_root/assets/maps/<map_id>. */
  lemma MapDirShape(l: Layout, mapId: string)
    requires Component(mapId)
    ensures GetMapDir(l, mapId) == Render(PurePath(l.appRoot.rooted, l.appRoot.parts + ["assets", "maps", mapId]))
  {
    MapsDirShape(l);
    ParseComponent(mapId);
    var parts := l.appRoot.parts;
    assert parts + ["assets", "maps"] + [mapId] == parts + ["assets", "maps", mapId];
  }

  /** exports_dir is app_root/exports. */
  lemma ExportsDirShape(l: Layout)
    ensures GetExportsDir(l) == Render(PurePath(l.appRoot.rooted, l.appRoot.parts + ["exports"]))
  {
    ParseComponent("exports");
  }

  /** The components of a map image path below app_root. */
  lemma MapImageShape(l: Layout, mapId: string, imageFilename: string)
    requires Component(mapId) && Component(imageFilename)
    ensures GetMapImagePath(l, mapId, imageFilename)
         == Render(PurePath(l.appRoot.rooted, l.appRoot.parts + ["assets", "maps", mapId, imageFilename]))
  {
    MapsDirShape(l);
    ParseComponent(mapId);
    ParseComponent(imageFilename);
    var parts := l.appRoot.parts;
    assert parts + ["assets", "maps"] + [mapId] + [imageFilename] == parts + ["assets", "maps", mapId, imageFilename];
  }

  /** A map image is app_root/assets/maps/<map_id>/<file>. */
  lemma MapImagePath(l: Layout, mapId: string, imageFilename: string)
    requires |l.appRoot.parts| > 0
    requires Component(mapId) && Component(imageFilename)
    ensures GetMapImagePath(l, mapId, imageFilename)
         == Render(l.appRoot) + "/" + ("assets/maps/" + mapId + "/" + imageFilename)
  {
    MapImageShape(l, mapId, imageFilename);
    RenderBelowFour(l.appRoot, "assets", "maps", mapId, imageFilename);
  }

  /** The relative form of a map image path is assets/maps/<map_id>/<file>. */
  lemma MapImageRelative(l: Layout, mapId: string, imageFilename: string)
    requires WellFormed(l.appRoot)
    requires Component(mapId) && Component(imageFilename)
    requires '\\' !in mapId && '\\' !in imageFilename
    ensures GetRelativePath(l, GetMapImagePath(l, mapId, imageFilename))
         == "assets/maps/" + mapId + "/" + imageFilename
  {
    var rel := PurePath(false, ["assets", "maps", mapId, imageFilename]);
    MapImageAbsolute(l, mapId, imageFilename);
    RelativeAbsoluteRoundTrip(l, rel);
    MapImageRelativeText(mapId, imageFilename);
  }

  lemma MapImageRelativeText(mapId: string, imageFilename: string)
    ensures Render(PurePath(false, ["assets", "maps", mapId, imageFilename])) == "assets/maps/" + mapId + "/" + imageFilename
  {
    JoinFour("assets", "maps", mapId, imageFilename);
  }

  /** A map image path is what its relative form gives back as an absolute path. */
  lemma MapImageAbsolute(l: Layout, mapId: string, imageFilename: string)
    requires Component(mapId) && Component(imageFilename)
    ensures GetAbsolutePath(l, Render(PurePath(false, ["assets", "maps", mapId, imageFilename])))
         == GetMapImagePath(l, mapId, imageFilename)
  {
    var rel := PurePath(false, ["assets", "maps", mapId, imageFilename]);
    MapImageShape(l, mapId, imageFilename);
    ParseRender(rel);
  }
}
