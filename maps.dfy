/**
 * Map templates (src/LatamPMDevs/minerware/arena/Map.php): the immutable
 * description of a playable layout, the process-wide registry that every
 * constructed template joins, and the derivation of the names and paths a
 * session's world instance and the template's backup archive live under.
 */
module Maps {
  import opened Wrappers
  import opened Geometry

  /** Side lengths of every map's main platform, in blocks. */
  const PLATFORM_X_SIZE: int := 24
  const PLATFORM_Z_SIZE: int := 24

  /** The path separator of the server's file system. */
  const DIRECTORY_SEPARATOR: string := "/"

  /** A 2x2 square of cells at height 1, with (a, 1, b) its lowest corner. */
  function Square(a: int, b: int): seq<Vec3> {
    [Vec3(a, 1, b), Vec3(a + 1, 1, b), Vec3(a, 1, b + 1), Vec3(a + 1, 1, b + 1)]
  }

  /** The mini platforms, as offsets from the platform's minimum corner. */
  const MINI_PLATFORMS: seq<seq<Vec3>> := [
    [Vec3(3, 1, 3), Vec3(4, 1, 3), Vec3(3, 1, 4), Vec3(4, 1, 4)],
    [Vec3(11, 1, 3), Vec3(12, 1, 3), Vec3(11, 1, 4), Vec3(12, 1, 4)],
    [Vec3(19, 1, 3), Vec3(20, 1, 3), Vec3(19, 1, 4), Vec3(20, 1, 4)],
    [Vec3(3, 1, 11), Vec3(4, 1, 11), Vec3(3, 1, 12), Vec3(4, 1, 12)],
    [Vec3(11, 1, 11), Vec3(12, 1, 11), Vec3(11, 1, 12), Vec3(12, 1, 12)],
    [Vec3(19, 1, 11), Vec3(20, 1, 11), Vec3(19, 1, 12), Vec3(20, 1, 12)],
    [Vec3(3, 1, 19), Vec3(4, 1, 19), Vec3(3, 1, 20), Vec3(4, 1, 20)],
    [Vec3(11, 1, 19), Vec3(12, 1, 19), Vec3(11, 1, 20), Vec3(12, 1, 20)],
    [Vec3(19, 1, 19), Vec3(20, 1, 19), Vec3(19, 1, 20), Vec3(20, 1, 20)]
  ]

  /** A point of the configuration, read from its "X", "Y" and "Z" keys. */
  datatype Coords = Coords(x: int, y: int, z: int) {
    function ToVec(): Vec3 { Vec3(x, y, z) }
  }

  /** The configuration a template is loaded from. */
  datatype MapData = MapData(
    name: string,
    pos1: Coords,
    pos2: Coords,
    spawns: seq<Coords>,
    winners: Coords,
    losers: Coords)

  /** A world instance as the world manager hands it out once loaded. */
  datatype World = World(folderName: string, path: string)

  /**
   * The two opposite corners of the box spanned by a and b, lowest first:
   * on every axis the two results are the two inputs, in order.
   */
  function MinAndMaxPos(a: Vec3, b: Vec3): (r: (Vec3, Vec3))
    ensures r.0.LessEq(r.1)
    ensures multiset{r.0.x, r.1.x} == multiset{a.x, b.x}
    ensures multiset{r.0.y, r.1.y} == multiset{a.y, b.y}
    ensures multiset{r.0.z, r.1.z} == multiset{a.z, b.z}
  {
    (Vec3(Min(a.x, b.x), Min(a.y, b.y), Min(a.z, b.z)),
     Vec3(Max(a.x, b.x), Max(a.y, b.y), Max(a.z, b.z)))
  }

  /**
   * The centre of a platform whose minimum corner is minPos: at the floor's
   * height, and as far from the minimum edge as from the far edge on both
   * horizontal axes.
   */
  function CenterOf(minPos: Vec3): (c: Vec3)
    ensures c.y == minPos.y
    ensures c.x - minPos.x == minPos.x + PLATFORM_X_SIZE - c.x
    ensures c.z - minPos.z == minPos.z + PLATFORM_Z_SIZE - c.z
  {
    minPos.Add(PLATFORM_X_SIZE / 2, 0, PLATFORM_Z_SIZE / 2)
  }

  /** The spawn points of a template: one per configured entry, in order. */
  method SpawnsFrom(entries: seq<Coords>) returns (spawns: seq<Vec3>)
    ensures |spawns| == |entries|
    ensures forall i | 0 <= i < |entries| ::
      spawns[i] == Vec3(entries[i].x, entries[i].y, entries[i].z)
  {
    spawns := [];
    for i := 0 to |entries|
      invariant |spawns| == i
      invariant forall j | 0 <= j < i ::
        spawns[j] == Vec3(entries[j].x, entries[j].y, entries[j].z)
    {
      spawns := spawns + [entries[i].ToVec()];
    }
  }

  /** The folder name of the world instance a session `uniqueId` plays on. */
  function WorldName(name: string, uniqueId: string): string {
    name + "-" + uniqueId
  }

  /** The directory a world folder lives in under the server's data path. */
  function WorldDir(serverPath: string, folderName: string): string {
    serverPath + "worlds" + DIRECTORY_SEPARATOR + folderName + DIRECTORY_SEPARATOR
  }

  /** The prefix of every backup archive's path under the plugin's data folder. */
  function BackupsDir(dataFolder: string): string {
    dataFolder + "database" + DIRECTORY_SEPARATOR + "backups" + DIRECTORY_SEPARATOR
  }

  /**
   * Where a template's backup archive is stored: the backups directory, the
   * template's name and the ".zip" extension.
   */
  function ZipPath(dataFolder: string, name: string): (p: string)
    ensures |p| == |BackupsDir(dataFolder)| + |name| + 4
    ensures p[..|BackupsDir(dataFolder)|] == BackupsDir(dataFolder)
    ensures p[|BackupsDir(dataFolder)|..|p| - 4] == name
    ensures p[|p| - 4..] == ".zip"
  {
    var p := BackupsDir(dataFolder) + name + ".zip";
    assert p[..|BackupsDir(dataFolder)|] == BackupsDir(dataFolder);
    assert p[|BackupsDir(dataFolder)|..|p| - 4] == name;
    p
  }

  /** The first map of the registry, in registration order, with that name. */
  function FirstNamed(maps: seq<Map>, name: string): (r: Option<Map>)
    ensures r.Some? ==> r.value in maps && r.value.name == name
  {
    if maps == [] then None
    else if maps[0].name == name then Some(maps[0])
    else FirstNamed(maps[1..], name)
  }

  /** A template. Every field is set once, by the constructor. */
  class Map {
    const data: MapData
    const name: string
    const platformMinPos: Vec3
    const platformMaxPos: Vec3
    const center: Vec3
    const spawns: seq<Vec3>
    const winnersCage: Vec3
    const losersCage: Vec3

    /**
     * Reads a template from its configuration and registers it: the new
     * map is appended to the registry and nothing registered before moves.
     */
    constructor (data: MapData, registry: MapRegistry)
      modifies registry
      ensures this.data == data && name == data.name
      ensures (platformMinPos, platformMaxPos) == MinAndMaxPos(data.pos1.ToVec(), data.pos2.ToVec())
      ensures platformMinPos.LessEq(platformMaxPos)
      ensures center == CenterOf(platformMinPos)
      ensures |spawns| == |data.spawns|
      ensures forall i | 0 <= i < |spawns| :: spawns[i] == data.spawns[i].ToVec()
      ensures winnersCage == data.winners.ToVec() && losersCage == data.losers.ToVec()
      ensures registry.maps == old(registry.maps) + [this]
    {
      this.data := data;
      name := data.name;
      var minMax := MinAndMaxPos(data.pos1.ToVec(), data.pos2.ToVec());
      platformMinPos := minMax.0;
      platformMaxPos := minMax.1;
      center := CenterOf(minMax.0);
      var points := SpawnsFrom(data.spawns);
      spawns := points;
      winnersCage := data.winners.ToVec();
      losersCage := data.losers.ToVec();
      new;
      registry.maps := registry.maps + [this];
    }

    /**
     * Provisions the world instance of session `uniqueId`: the backup
     * archive is extracted into the directory named after WorldName, and
     * the world manager is asked to load that same folder; `loaded` is its
     * answer. Either the world by that name comes back, or generation fails.
     */
    function GenerateWorld(serverPath: string, uniqueId: string, loaded: bool): (r: Result<World, string>)
      ensures r.Success? <==> loaded
      ensures r.Success? ==> r.value.folderName == WorldName(name, uniqueId)
      ensures r.Success? ==> r.value.path == WorldDir(serverPath, r.value.folderName)
      ensures r.Failure? ==> r.error == "Error Generating world"
    {
      var folderName := WorldName(name, uniqueId);
      if loaded then Success(World(folderName, WorldDir(serverPath, folderName)))
      else Failure("Error Generating world")
    }
  }

  /** The process-wide list of templates, in the order they were constructed. */
  class MapRegistry {
    var maps: seq<Map>

    constructor ()
      ensures maps == []
    {
      maps := [];
    }

    /**
     * The first registered map with the given name, or None when no
     * registered map has that name.
     */
    method GetByName(name: string) returns (r: Option<Map>)
      ensures r == FirstNamed(maps, name)
      ensures r.None? <==> forall i | 0 <= i < |maps| :: maps[i].name != name
      ensures r.Some? ==> exists i | 0 <= i < |maps| ::
        maps[i] == r.value && r.value.name == name &&
        forall j | 0 <= j < i :: maps[j].name != name
    {
      FirstNamedIsFirst(maps, name);
      var i := 0;
      assert maps[i..] == maps;
      while i < |maps|
        invariant 0 <= i <= |maps|
        invariant FirstNamed(maps[i..], name) == FirstNamed(maps, name)
      {
        if maps[i].name == name {
          return Some(maps[i]);
        }
        assert maps[i..][1..] == maps[i + 1..];
        i := i + 1;
      }
      return None;
    }
  }

  /** FirstNamed finds the earliest map with the name, and finds none only when there is none. */
  lemma {:induction false} FirstNamedIsFirst(maps: seq<Map>, name: string)
    ensures FirstNamed(maps, name).None? <==> forall i | 0 <= i < |maps| :: maps[i].name != name
    ensures FirstNamed(maps, name).Some? ==> exists i | 0 <= i < |maps| ::
      maps[i] == FirstNamed(maps, name).value &&
      forall j | 0 <= j < i :: maps[j].name != name
  {
    if maps != [] && maps[0].name != name {
      FirstNamedIsFirst(maps[1..], name);
      if FirstNamed(maps[1..], name).Some? {
        var i :| 0 <= i < |maps| - 1 && maps[1..][i] == FirstNamed(maps[1..], name).value &&
          forall j | 0 <= j < i :: maps[1..][j].name != name;
        assert maps[i + 1] == FirstNamed(maps, name).value;
        forall j | 0 <= j < i + 1 ensures maps[j].name != name {
          if j > 0 { assert maps[j] == maps[1..][j - 1]; }
        }
      } else {
        forall i | 0 <= i < |maps| ensures maps[i].name != name {
          if i > 0 { assert maps[i] == maps[1..][i - 1]; }
        }
      }
    }
  }

  /**
   * Registering another map never changes which map a name already finds;
   * a name found nowhere before finds the new map exactly when it is its name.
   */
  lemma {:induction false} FirstNamedAfterRegister(maps: seq<Map>, m: Map, name: string)
    ensures FirstNamed(maps + [m], name) ==
      if FirstNamed(maps, name).Some? then FirstNamed(maps, name)
      else if m.name == name then Some(m)
      else None
  {
    if maps != [] {
      assert (maps + [m])[1..] == maps[1..] + [m];
      FirstNamedAfterRegister(maps[1..], m, name);
    }
  }

  /** Every mini platform is a 2x2 square at height 1, on a 3x3 grid of pitch 8 from (3, 3). */
  lemma MiniPlatformGrid()
    ensures |MINI_PLATFORMS| == 9
    ensures forall k | 0 <= k < 9 :: MINI_PLATFORMS[k] == Square(3 + 8 * (k % 3), 3 + 8 * (k / 3))
  {
    forall k | 0 <= k < 9
      ensures MINI_PLATFORMS[k] == Square(3 + 8 * (k % 3), 3 + 8 * (k / 3))
    {
      if k == 0 {} else if k == 1 {} else if k == 2 {}
      else if k == 3 {} else if k == 4 {} else if k == 5 {}
      else if k == 6 {} else if k == 7 {} else {}
    }
  }

  /** Each of the nine mini platforms has four cells at height 1 inside the 24x24 platform. */
  lemma MiniPlatformsInsidePlatform()
    ensures |MINI_PLATFORMS| == 9
    ensures forall k, i | 0 <= k < 9 && 0 <= i < |MINI_PLATFORMS[k]| ::
      MINI_PLATFORMS[k][i].y == 1 &&
      0 <= MINI_PLATFORMS[k][i].x < PLATFORM_X_SIZE &&
      0 <= MINI_PLATFORMS[k][i].z < PLATFORM_Z_SIZE
    ensures forall k | 0 <= k < 9 :: |MINI_PLATFORMS[k]| == 4
  {
    MiniPlatformGrid();
  }

  /** No cell belongs to two mini platforms. */
  lemma MiniPlatformsDisjoint()
    ensures forall k1, k2, i1, i2 | 0 <= k1 < k2 < 9 && 0 <= i1 < 4 && 0 <= i2 < 4 ::
      MINI_PLATFORMS[k1][i1] != MINI_PLATFORMS[k2][i2]
  {
    MiniPlatformGrid();
    forall k1, k2, i1, i2 | 0 <= k1 < k2 < 9 && 0 <= i1 < 4 && 0 <= i2 < 4
      ensures MINI_PLATFORMS[k1][i1] != MINI_PLATFORMS[k2][i2]
    {
      assert k1 % 3 != k2 % 3 || k1 / 3 != k2 / 3;
    }
  }

  /**
   * The middle mini platform is the 2x2 square of cells that meet at the
   * platform's centre.
   */
  lemma MiddleMiniPlatformAtCenter(minPos: Vec3)
    ensures forall i | 0 <= i < |MINI_PLATFORMS[4]| ::
      CenterOf(minPos).x - 1 <= minPos.x + MINI_PLATFORMS[4][i].x <= CenterOf(minPos).x &&
      CenterOf(minPos).z - 1 <= minPos.z + MINI_PLATFORMS[4][i].z <= CenterOf(minPos).z
  {
    MiniPlatformGrid();
  }

  /**
   * For one template, sessions with different ids never share a world
   * folder, nor the directory the archive is extracted into.
   */
  lemma WorldNameInjective(serverPath: string, name: string, id1: string, id2: string)
    requires id1 != id2
    ensures WorldName(name, id1) != WorldName(name, id2)
    ensures WorldDir(serverPath, WorldName(name, id1)) != WorldDir(serverPath, WorldName(name, id2))
  {
    assert WorldName(name, id1)[|name| + 1..] == id1;
    assert WorldName(name, id2)[|name| + 1..] == id2;
    var k := |serverPath + "worlds" + DIRECTORY_SEPARATOR|;
    var dir1, dir2 := WorldDir(serverPath, WorldName(name, id1)), WorldDir(serverPath, WorldName(name, id2));
    assert dir1[k..|dir1| - 1] == WorldName(name, id1);
    assert dir2[k..|dir2| - 1] == WorldName(name, id2);
  }

  /** Sessions of two different templates can end up with the same world folder. */
  lemma WorldNamesOfDifferentMapsCanCollide()
    ensures exists name1, id1, name2, id2 ::
      name1 != name2 && WorldName(name1, id1) == WorldName(name2, id2)
  {
    assert WorldName("a-b", "c") == WorldName("a", "b-c");
  }

  /** Distinct templates keep their backups in distinct archives. */
  lemma ZipPathInjective(dataFolder: string, name1: string, name2: string)
    requires name1 != name2
    ensures ZipPath(dataFolder, name1) != ZipPath(dataFolder, name2)
  {
  }
}
