/** The camera object: it reads the parameter file, selects and ranks the cameras, loads the
    calibration maps, and moves trigger stamps and image pairs through its three queues. The
    camera SDK and the imaging library are replaced by the inputs each operation receives. */
module Cameras {
  import opened Wrappers
  import opened Text
  import opened Frames
  import opened Selection
  import opened Config
  import opened Acquisition
  import PairImagesRaw

  const ConfigFileError := "Could not open the file to load camera data"
  const NoTransportLayer := "No GigE transport layer available."
  const NoCamerasPresent := "No GigE cameras present."
  const NoChunkFeatures := "The camera doesn't support chunk features"
  const Map01Error := "Could not load map_0_1."
  const Map02Error := "Could not load map_0_2."
  const Map11Error := "Could not load map_1_1."
  /** The message for slot 1's second map repeats slot 0's, as the code has it. */
  const Map12Error := "Could not load map_0_2."

  /** The four calibration maps: the two of the camera ranked first, then the two of the camera
      ranked second. */
  datatype Maps = Maps(m01: Bytes, m02: Bytes, m11: Bytes, m12: Bytes)

  /** What loading the maps leaves behind: the message of the read that failed, if one did, and the
      four maps. */
  datatype MapLoad = MapLoad(err: Option<string>, maps: Maps)

  /** Reads the first camera's two maps from the paths in `first`, then, when `second` holds the
      second camera's paths, that camera's two maps; the first read that fails stops loading.
      Without a second camera, its maps are copies of the first camera's. */
  function LoadMaps(readMap: string -> Option<Bytes>, first: (string, string), second: Option<(string, string)>,
                    prior: Maps): (r: MapLoad)
    ensures r.err == None <==>
      readMap(first.0).Some? && readMap(first.1).Some?
      && (second.Some? ==> readMap(second.value.0).Some? && readMap(second.value.1).Some?)
    ensures r.err == None ==>
      r.maps.m01 == readMap(first.0).value && r.maps.m02 == readMap(first.1).value
      && (second.None? ==> r.maps.m11 == r.maps.m01 && r.maps.m12 == r.maps.m02)
      && (second.Some? ==> r.maps.m11 == readMap(second.value.0).value && r.maps.m12 == readMap(second.value.1).value)
    ensures r.err.Some? ==> r.maps.m12 == prior.m12
    ensures readMap(first.0).None? ==> r == MapLoad(Some(Map01Error), prior)
    ensures readMap(first.0).Some? && readMap(first.1).None? ==>
      r == MapLoad(Some(Map02Error), prior.(m01 := readMap(first.0).value))
  {
    var r01 := readMap(first.0);
    if r01.None? then MapLoad(Some(Map01Error), prior)
    else
      var r02 := readMap(first.1);
      if r02.None? then MapLoad(Some(Map02Error), prior.(m01 := r01.value))
      else if second.None? then MapLoad(None, Maps(r01.value, r02.value, r01.value, r02.value))
      else
        var r11 := readMap(second.value.0);
        if r11.None? then MapLoad(Some(Map11Error), prior.(m01 := r01.value, m02 := r02.value))
        else
          var r12 := readMap(second.value.1);
          if r12.None? then MapLoad(Some(Map12Error), prior.(m01 := r01.value, m02 := r02.value, m11 := r11.value))
          else MapLoad(None, Maps(r01.value, r02.value, r11.value, r12.value))
  }

  /** A failed read of the second camera's second map reports the message of a failed read of
      the first camera's second map: the two failures are indistinguishable by their message. */
  lemma SecondMapMessagesCoincide(readA: string -> Option<Bytes>, readB: string -> Option<Bytes>,
                                  first: (string, string), second: (string, string), prior: Maps)
    requires readA(first.0).Some? && readA(first.1).None?
    requires readB(first.0).Some? && readB(first.1).Some? && readB(second.0).Some? && readB(second.1).None?
    ensures LoadMaps(readA, first, Some(second), prior).err == LoadMaps(readB, first, Some(second), prior).err
  {
  }

  /** A read of the second camera's maps, or a failed one, does not depend on what the map
      fields held before: only the maps of a failed load keep earlier values. */
  lemma LoadMapsIgnoresPrior(readMap: string -> Option<Bytes>, first: (string, string), second: Option<(string, string)>,
                             prior1: Maps, prior2: Maps)
    ensures LoadMaps(readMap, first, second, prior1).err == LoadMaps(readMap, first, second, prior2).err
    ensures LoadMaps(readMap, first, second, prior1).err == None ==>
      LoadMaps(readMap, first, second, prior1).maps == LoadMaps(readMap, first, second, prior2).maps
  {
  }

  /** The map fields of a fresh camera object. */
  const NoMaps := Maps([], [], [], [])

  /** The two map paths of the camera ranked k, under the calibration directory `pathCal`. */
  function RankedPaths(pathCal: string, serials: seq<string>, ranking: seq<nat>, k: nat): (string, string)
    requires k < |ranking| && ranking[k] < |serials|
  {
    (CalibrationPath(pathCal, serials[ranking[k]], Map1), CalibrationPath(pathCal, serials[ranking[k]], Map2))
  }

  /** The map paths of the camera ranked second, when there are two cameras. */
  function SecondRankedPaths(pathCal: string, serials: seq<string>, ranking: seq<nat>): Option<(string, string)>
    requires IsPermutation(ranking, |serials|)
  {
    if |serials| == 2 then Some(RankedPaths(pathCal, serials, ranking, 1)) else None
  }

  /** The message that ends the steps after the parameter file, if one does: no transport layer,
      then no device, then an exception from attaching, opening or configuring the cameras, then
      a camera without chunk mode, then an exception from the chunk, balance-ratio or
      start-grabbing calls, then the first map that cannot be read, for the cameras the subnet
      filter keeps, ranked by serial number, and their maps under `pathCal`. */
  function ConnectError(env: Environment, useChunkFeatures: bool, pathCal: string): Option<string>
  {
    if !env.transportLayer then Some(NoTransportLayer)
    else if env.devices == [] then Some(NoCamerasPresent)
    else
      var serials := SerialsOf(Usable(env.devices));
      if env.configureError.Some? then env.configureError
      else if !ChunksWritable(useChunkFeatures, env.chunkWritable, |serials|) then Some(NoChunkFeatures)
      else if env.startError.Some? then env.startError
      else
        UsableProperties(env.devices);
        var ranking := Ranking(serials);
        LoadMaps(env.maps, RankedPaths(pathCal, serials, ranking, 0), SecondRankedPaths(pathCal, serials, ranking), NoMaps).err
  }

  /** The message construction ends with, if any: the parameter file must open, then the steps
      after it run with the calibration directory the file sets. */
  function ConstructionError(env: Environment, configPath: string, useChunkFeatures: bool, prior: CameraConfig): Option<string>
  {
    var file := env.files(ConfigFilePath(configPath));
    if file.None? then Some(ConfigFileError)
    else ConnectError(env, useChunkFeatures, ReadConfig(file.value, prior, env.readReal, env.readInt64).pathCal)
  }

  /** Every camera of `serials` has both of its maps under `pathCal`. */
  predicate AllMapsReadable(readMap: string -> Option<Bytes>, pathCal: string, serials: seq<string>) {
    forall k, m :: 0 <= k < |serials| ==> readMap(CalibrationPath(pathCal, serials[k], m)).Some?
  }

  /** The steps after the parameter file succeed exactly when there is a transport layer and a
      device, no device call throws, every camera in use supports chunk mode when it is asked
      for, and every camera in use, whatever its rank, has both of its maps. */
  lemma ConnectSucceedsIff(env: Environment, useChunkFeatures: bool, pathCal: string)
    ensures ConnectError(env, useChunkFeatures, pathCal) == None <==>
      && env.transportLayer && env.devices != []
      && env.configureError == None && env.startError == None
      && ChunksWritable(useChunkFeatures, env.chunkWritable, |Usable(env.devices)|)
      && AllMapsReadable(env.maps, pathCal, SerialsOf(Usable(env.devices)))
  {
    if env.transportLayer && env.devices != [] && env.configureError == None && env.startError == None {
      var serials := SerialsOf(Usable(env.devices));
      UsableProperties(env.devices);
      var r := Ranking(serials);
      if ChunksWritable(useChunkFeatures, env.chunkWritable, |serials|) {
        var load := LoadMaps(env.maps, RankedPaths(pathCal, serials, r, 0), SecondRankedPaths(pathCal, serials, r), NoMaps);
        assert ConnectError(env, useChunkFeatures, pathCal) == load.err;
        if |serials| == 2 {
          assert r[0] != r[1];
        }
        if AllMapsReadable(env.maps, pathCal, serials) {
          assert env.maps(CalibrationPath(pathCal, serials[r[0]], Map1)).Some?;
          assert env.maps(CalibrationPath(pathCal, serials[r[0]], Map2)).Some?;
          if |serials| == 2 {
            assert env.maps(CalibrationPath(pathCal, serials[r[1]], Map1)).Some?;
            assert env.maps(CalibrationPath(pathCal, serials[r[1]], Map2)).Some?;
          }
        }
        if load.err == None {
          forall k, m | 0 <= k < |serials| ensures env.maps(CalibrationPath(pathCal, serials[k], m)).Some? {
            var rank := if k == r[0] then 0 else 1;
            assert r[rank] == k;
            match m
            case Map1 => assert RankedPaths(pathCal, serials, r, rank).0 == CalibrationPath(pathCal, serials[k], m);
            case Map2 => assert RankedPaths(pathCal, serials, r, rank).1 == CalibrationPath(pathCal, serials[k], m);
          }
        }
      }
    }
  }

  /** Construction succeeds exactly when the parameter file opens, no device call throws, and
      the steps after it succeed with the calibration directory it sets. */
  lemma ConstructionSucceedsIff(env: Environment, configPath: string, useChunkFeatures: bool, prior: CameraConfig)
    ensures ConstructionError(env, configPath, useChunkFeatures, prior) == None <==>
      && env.files(ConfigFilePath(configPath)).Some?
      && env.transportLayer && env.devices != []
      && env.configureError == None && env.startError == None
      && ChunksWritable(useChunkFeatures, env.chunkWritable, |Usable(env.devices)|)
      && AllMapsReadable(env.maps, ReadConfig(env.files(ConfigFilePath(configPath)).value, prior, env.readReal, env.readInt64).pathCal,
                         SerialsOf(Usable(env.devices)))
  {
    var file := env.files(ConfigFilePath(configPath));
    if file.Some? {
      ConnectSucceedsIff(env, useChunkFeatures, ReadConfig(file.value, prior, env.readReal, env.readInt64).pathCal);
    }
  }

  /** The key code that asks the program to exit. */
  const EscapeKey := 27

  /** Default configuration directory, relative to the working directory. */
  const DefaultConfigPath := "./config/"
  const DefaultDataPath := "./data/"

  /** The settings before the parameter file is read. No default is given for the calibration
      directory; it is empty. */
  const DefaultSettings := CameraConfig(DefaultDataPath, true, true, 13057.0, 23, "")

  /** The serial numbers of the devices, in their order. */
  function SerialsOf(devices: seq<DeviceInfo>): (s: seq<string>)
    ensures |s| == |devices| && forall i :: 0 <= i < |devices| ==> s[i] == devices[i].serial
  {
    seq(|devices|, i requires 0 <= i < |devices| => devices[i].serial)
  }

  /** Whether every camera of the array (by array index) can have chunk mode switched on; only
      asked when chunk features are used. */
  predicate ChunksWritable(useChunkFeatures: bool, chunkWritable: nat -> bool, n: nat) {
    useChunkFeatures ==> forall i :: 0 <= i < n ==> chunkWritable(i)
  }

  /** The chunk-mode loop over the array: the first camera whose chunk mode is not writable
      stops it with an exception, reported here as `false`. */
  method CheckChunks(chunkWritable: nat -> bool, n: nat) returns (writable: bool)
    ensures writable <==> forall i :: 0 <= i < n ==> chunkWritable(i)
  {
    var i := 0;
    while i < n
      invariant 0 <= i <= n
      invariant forall k :: 0 <= k < i ==> chunkWritable(k)
    {
      if !chunkWritable(i) {
        return false;
      }
      i := i + 1;
    }
    return true;
  }

  /** What the constructor's three steps read from the outside: the file system, the stream
      extractions of a real and of a 64-bit integer, the transport layer and its devices, each
      camera's chunk-mode and balance-ratio features, and the calibration maps.
      `configureError` is the message of an exception thrown while the cameras are attached,
      given their trigger configuration, opened and have their features written, if one is;
      `startError` that of one thrown by the chunk selector and enable writes, the
      balance-ratio selector writes or the start of grabbing. */
  datatype Environment = Environment(
    files: string -> Option<TextFile>,
    readReal: string -> real,
    readInt64: string -> int,
    transportLayer: bool,
    devices: seq<DeviceInfo>,
    configureError: Option<string>,
    chunkWritable: nat -> bool,
    balanceOf: nat -> Balance,
    startError: Option<string>,
    maps: string -> Option<Bytes>)

  class Cameras {
    const useExternalTrigger: bool
    const useChunkFeatures: bool

    var loadParam: bool
    var configPath: string
    /** The six settings of the parameter file: data path, the two automatic-adjustment flags,
        exposure time, gain and calibration directory. */
    var settings: CameraConfig

    var subnet: string
    /** The serial numbers of the cameras in the array, by array index. */
    var serials: seq<string>
    /** Position k holds the array index of the camera with the k-th smallest serial. */
    var sortedCameraIdx: seq<nat>
    var balance0: Balance
    var balance1: Balance

    var map01: Bytes
    var map02: Bytes
    var map11: Bytes
    var map12: Bytes

    var triggerQueue: seq<string>
    var imgDisplayQueue: seq<Pair>
    var imgStorageQueue: seq<Pair>
    var exitProgram: bool

    /** One or two cameras are in use and the ranking orders them by serial number. */
    predicate Valid()
      reads this`serials, this`sortedCameraIdx
    {
      1 <= |serials| <= MaxCamerasToUse
      && IsPermutation(sortedCameraIdx, |serials|)
      && forall a, b :: 0 <= a < b < |serials| ==> LexLeq(serials[sortedCameraIdx[a]], serials[sortedCameraIdx[b]])
    }

    /** The number of cameras in the array. */
    function GetNumCam(): (n: nat)
      reads this`serials
      ensures Valid() ==> 1 <= n <= MaxCamerasToUse
    {
      |serials|
    }

    /** What a grab step reads. */
    function Setup(): (g: GrabSetup)
      reads this`serials, this`sortedCameraIdx, this`settings, this`balance0, this`balance1
      ensures Valid() ==> ValidSetup(g)
    {
      GrabSetup(|serials|, sortedCameraIdx, serials, useExternalTrigger, useChunkFeatures,
                settings.autoExpTimeCont, settings.autoGainCont, balance0, balance1)
    }

    /** The field defaults, before the constructor's three steps. */
    constructor Default(useExternalTrigger: bool, useChunkFeatures: bool)
      ensures this.useExternalTrigger == useExternalTrigger && this.useChunkFeatures == useChunkFeatures
      ensures !loadParam && configPath == DefaultConfigPath
      ensures settings == DefaultSettings
      ensures serials == [] && sortedCameraIdx == []
      ensures triggerQueue == [] && imgDisplayQueue == [] && imgStorageQueue == [] && !exitProgram
    {
      this.useExternalTrigger := useExternalTrigger;
      this.useChunkFeatures := useChunkFeatures;
      loadParam := false;
      configPath := DefaultConfigPath;
      settings := DefaultSettings;
      subnet := "";
      serials := [];
      sortedCameraIdx := [];
      balance0 := Balance(0.0, 0.0, 0.0);
      balance1 := Balance(0.0, 0.0, 0.0);
      map01, map02, map11, map12 := [], [], [], [];
      triggerQueue := [];
      imgDisplayQueue := [];
      imgStorageQueue := [];
      exitProgram := false;
    }

    /** As the default, but with the configuration directory given and the per-camera parameter
        files to be loaded. */
    constructor WithConfigPath(path: string, useExternalTrigger: bool, useChunkFeatures: bool)
      ensures this.useExternalTrigger == useExternalTrigger && this.useChunkFeatures == useChunkFeatures
      ensures loadParam && configPath == path
      ensures settings == DefaultSettings
      ensures serials == [] && sortedCameraIdx == []
      ensures triggerQueue == [] && imgDisplayQueue == [] && imgStorageQueue == [] && !exitProgram
    {
      this.useExternalTrigger := useExternalTrigger;
      this.useChunkFeatures := useChunkFeatures;
      loadParam := true;
      configPath := path;
      settings := DefaultSettings;
      subnet := "";
      serials := [];
      sortedCameraIdx := [];
      balance0 := Balance(0.0, 0.0, 0.0);
      balance1 := Balance(0.0, 0.0, 0.0);
      map01, map02, map11, map12 := [], [], [], [];
      triggerQueue := [];
      imgDisplayQueue := [];
      imgStorageQueue := [];
      exitProgram := false;
    }

    /** The body both constructors share: read the parameter file, initialise the cameras,
        load the maps; the first step that throws ends construction with its message. */
    method Start(env: Environment) returns (err: Option<string>)
      requires sortedCameraIdx == []
      modifies this`settings, this`subnet, this`serials, this`sortedCameraIdx, this`balance0, this`balance1
      modifies this`map01, this`map02, this`map11, this`map12
      ensures unchanged(this`triggerQueue, this`imgStorageQueue, this`exitProgram)
      ensures err == ConstructionError(env, configPath, useChunkFeatures, old(settings))
      ensures env.files(ConfigFilePath(configPath)).None? ==> settings == old(settings)
      ensures env.files(ConfigFilePath(configPath)).Some? ==>
        settings == ReadConfig(env.files(ConfigFilePath(configPath)).value, old(settings), env.readReal, env.readInt64)
      ensures err == None ==> Connected(env) && (|serials| == 1 ==> balance1 == old(balance1))
    {
      err := LoadCameraConfig(env.files, env.readReal, env.readInt64);
      if err.Some? { return; }
      err := Connect(env);
    }

    /** The steps of construction after the parameter file: initialise the cameras, then load
        their maps. */
    method Connect(env: Environment) returns (err: Option<string>)
      requires sortedCameraIdx == []
      modifies this`subnet, this`serials, this`sortedCameraIdx, this`balance0, this`balance1
      modifies this`map01, this`map02, this`map11, this`map12
      ensures unchanged(this`triggerQueue, this`imgStorageQueue, this`exitProgram)
      ensures err == ConnectError(env, useChunkFeatures, settings.pathCal)
      ensures err == None ==> Connected(env) && (|serials| == 1 ==> balance1 == old(balance1))
    {
      var missing;
      err, missing := Init(env.transportLayer, env.devices, env.configureError, env.chunkWritable, env.balanceOf, env.startError);
      if err.Some? { return; }
      err := LoadMap(env.maps);
      LoadMapsIgnoresPrior(env.maps, FirstPaths(), SecondPaths(), old(LoadedMaps()), NoMaps);
    }

    /** Opens the parameter file in the configuration directory and reads its six settings. */
    method LoadCameraConfig(files: string -> Option<TextFile>, readReal: string -> real, readInt64: string -> int)
      returns (err: Option<string>)
      modifies this`settings
      ensures unchanged(this`triggerQueue, this`imgStorageQueue, this`exitProgram)
      ensures files(ConfigFilePath(configPath)).None? ==> err == Some(ConfigFileError) && settings == old(settings)
      ensures files(ConfigFilePath(configPath)).Some? ==>
        err == None && settings == ReadConfig(files(ConfigFilePath(configPath)).value, old(settings), readReal, readInt64)
    {
      var pathData := ConfigFilePath(configPath);
      var file := files(pathData);
      if file.None? {
        return Some(ConfigFileError);
      }
      settings := ReadSettings(file.value, settings, readReal, readInt64);
      err := None;
    }

    /** Selects the cameras, ranks them by serial number, configures them, checks chunk support,
        reads the balance ratios of the cameras ranked first and second and starts grabbing.
        `configureError` and `startError` are the exceptions the device calls before and after
        the chunk check may throw (every camera's chunk check is taken before the first chunk
        write). `missingWarning` is whether the warning about undetected cameras is shown, with
        the comparison its message calls for. */
    method Init(transportLayer: bool, devices: seq<DeviceInfo>, configureError: Option<string>, chunkWritable: nat -> bool,
                balanceOf: nat -> Balance, startError: Option<string>)
      returns (err: Option<string>, missingWarning: bool)
      requires sortedCameraIdx == []
      modifies this`subnet, this`serials, this`sortedCameraIdx, this`balance0, this`balance1
      ensures !transportLayer ==> err == Some(NoTransportLayer) && serials == old(serials) && sortedCameraIdx == []
      ensures transportLayer && devices == [] ==> err == Some(NoCamerasPresent) && serials == old(serials) && sortedCameraIdx == []
      ensures transportLayer && devices != [] ==>
        && subnet == devices[0].subnet
        && serials == SerialsOf(Usable(devices))
        && Valid()
        && sortedCameraIdx == Ranking(serials)
        && missingWarning == MissingCameras(|serials|)
        && (configureError.Some? ==> err == configureError && balance0 == old(balance0) && balance1 == old(balance1))
        && (configureError.None? && !ChunksWritable(useChunkFeatures, chunkWritable, |serials|) ==>
              err == Some(NoChunkFeatures) && balance0 == old(balance0) && balance1 == old(balance1))
        && (configureError.None? && ChunksWritable(useChunkFeatures, chunkWritable, |serials|) ==>
              && err == startError
              && balance0 == balanceOf(sortedCameraIdx[0])
              && balance1 == (if |serials| == 2 then balanceOf(sortedCameraIdx[1]) else old(balance1)))
    {
      missingWarning := false;
      if !transportLayer {
        return Some(NoTransportLayer), false;
      }
      if devices == [] {
        return Some(NoCamerasPresent), false;
      }
      missingWarning := SelectCameras(devices);
      if configureError.Some? {
        return configureError, missingWarning;
      }
      if useChunkFeatures {
        var writable := CheckChunks(chunkWritable, |serials|);
        if !writable {
          return Some(NoChunkFeatures), missingWarning;
        }
      }
      balance0 := balanceOf(sortedCameraIdx[0]);
      if |serials| == 2 {
        balance1 := balanceOf(sortedCameraIdx[1]);
      }
      err := startError;
    }

    /** The subnet filter and the ranking: the cameras in use and, for each rank, the array index
        of the camera holding it. */
    method SelectCameras(devices: seq<DeviceInfo>) returns (missingWarning: bool)
      requires devices != [] && sortedCameraIdx == []
      modifies this`subnet, this`serials, this`sortedCameraIdx
      ensures subnet == devices[0].subnet && serials == SerialsOf(Usable(devices)) && Valid()
      ensures sortedCameraIdx == Ranking(serials)
      ensures missingWarning == MissingCameras(|serials|)
    {
      var usable;
      usable, subnet := FilterSubnet(devices);
      UsableProperties(devices);
      TooManyCamerasUnreachable(devices);
      // The "more than the limit" test cannot pass after the filter.
      assert !TooManyCameras(|usable|);
      missingWarning := MissingCameras(|usable|);
      serials := SerialsOf(usable);
      var idx := SortedCameraIdx(serials);
      sortedCameraIdx := sortedCameraIdx + idx;
      assert sortedCameraIdx == idx;
    }

    /** The calibration map path of the camera ranked k. */
    function MapPath(k: nat, m: MapFile): string
      requires Valid() && k < |serials|
      reads this`serials, this`sortedCameraIdx, this`settings
    {
      CalibrationPath(settings.pathCal, serials[sortedCameraIdx[k]], m)
    }

    /** The four map fields. */
    function LoadedMaps(): Maps
      reads this`map01, this`map02, this`map11, this`map12
    {
      Maps(map01, map02, map11, map12)
    }

    /** The map paths of the camera ranked first. */
    function FirstPaths(): (string, string)
      requires Valid()
      reads this`serials, this`sortedCameraIdx, this`settings
    {
      RankedPaths(settings.pathCal, serials, sortedCameraIdx, 0)
    }

    /** The map paths of the camera ranked second, when there are two cameras. */
    function SecondPaths(): Option<(string, string)>
      requires Valid()
      reads this`serials, this`sortedCameraIdx, this`settings
    {
      SecondRankedPaths(settings.pathCal, serials, sortedCameraIdx)
    }

    /** The state successful construction leaves after the parameter file: the cameras the
        subnet filter keeps, ranked by serial number, the balance ratios of the camera ranked
        first (and of the camera ranked second, when there is one) and the maps of the ranked
        cameras. */
    predicate Connected(env: Environment)
      reads this`serials, this`sortedCameraIdx, this`settings, this`balance0, this`balance1
      reads this`map01, this`map02, this`map11, this`map12
      ensures Connected(env) ==> env.devices != [] && Valid() && |serials| == |Usable(env.devices)|
    {
      && env.devices != []
      && serials == SerialsOf(Usable(env.devices))
      && Valid()
      && sortedCameraIdx == Ranking(serials)
      && balance0 == env.balanceOf(sortedCameraIdx[0])
      && (|serials| == 2 ==> balance1 == env.balanceOf(sortedCameraIdx[1]))
      && LoadedMaps() == LoadMaps(env.maps, FirstPaths(), SecondPaths(), NoMaps).maps
    }

    /** Loads the two maps of the camera ranked first and, with two cameras, those of the camera
        ranked second; with one camera the second camera's maps are the first's. */
    method LoadMap(readMap: string -> Option<Bytes>) returns (err: Option<string>)
      requires Valid()
      modifies this`map01, this`map02, this`map11, this`map12
      ensures MapLoad(err, LoadedMaps()) == LoadMaps(readMap, FirstPaths(), SecondPaths(), old(LoadedMaps()))
    {
      var file01 := readMap(MapPath(0, Map1));
      if file01.None? { return Some(Map01Error); }
      map01 := file01.value;
      var file02 := readMap(MapPath(0, Map2));
      if file02.None? { return Some(Map02Error); }
      map02 := file02.value;
      if |serials| == 1 {
        map11 := map01;
        map12 := map02;
      }
      if |serials| == 2 {
        var file11 := readMap(MapPath(1, Map1));
        if file11.None? { return Some(Map11Error); }
        map11 := file11.value;
        var file12 := readMap(MapPath(1, Map2));
        if file12.None? { return Some(Map12Error); }
        map12 := file12.value;
      }
      err := None;
    }

    /** Takes the time stamp, then issues the action command; the stamp is queued only when the
        command returns normally. A failing command is caught here. */
    method IssueActionCommand(now: TimeVal, commandSucceeds: bool)
      modifies this`triggerQueue
      ensures triggerQueue == old(triggerQueue) + (if commandSucceeds then [StampTime(now)] else [])
    {
      var captureTimeCPU := StampTime(now);
      if commandSucceeds {
        triggerQueue := triggerQueue + [captureTimeCPU];
      }
    }

    /** One acquisition step. With software triggering it pops the stamp of one action command;
        then it retrieves one result per camera, in arrival order, and pushes the pair to the
        display queue unless a retrieval failed. `rs` is what the retrievals deliver and `clock`
        the stamp taken for each result with an external trigger. */
    method GrabImages(rs: seq<Retrieval>, clock: nat -> string) returns (failure: Option<GrabError>)
      requires Valid() && ContextsInRange(rs, |serials|)
      requires !useExternalTrigger ==> triggerQueue != []
      modifies this`triggerQueue, this`imgDisplayQueue
      ensures triggerQueue == if useExternalTrigger then old(triggerQueue) else old(triggerQueue)[1..]
      ensures var stamp := if useExternalTrigger then "" else old(triggerQueue)[0];
        match Grab(Setup(), rs, stamp, clock)
        case Ok(p) => failure == None && imgDisplayQueue == old(imgDisplayQueue) + [p]
        case Err(e) => failure == Some(e) && imgDisplayQueue == old(imgDisplayQueue)
    {
      var stamp := "";
      if !useExternalTrigger {
        stamp := triggerQueue[0];
        triggerQueue := triggerQueue[1..];
      }
      var g := Setup();
      var img0, img1;
      failure, img0, img1 := AcquirePair(g, rs, stamp, clock);
      if failure == None {
        imgDisplayQueue := imgDisplayQueue + [Pair(Some(img0), Some(img1))];
      }
    }

    /** The queue effect of one display step: the pair shown is popped and, when the escape key
        was pressed, the exit flag is raised and that pair goes to the storage queue. The
        conversions and the window are not modelled; `key` is what the key poll returns. */
    method DisplayImages(key: int)
      requires imgDisplayQueue != []
      modifies this`imgDisplayQueue, this`imgStorageQueue, this`exitProgram
      ensures imgDisplayQueue == old(imgDisplayQueue)[1..]
      ensures key == EscapeKey ==> exitProgram && imgStorageQueue == old(imgStorageQueue) + [old(imgDisplayQueue)[0]]
      ensures key != EscapeKey ==> exitProgram == old(exitProgram) && imgStorageQueue == old(imgStorageQueue)
    {
      var imgs := imgDisplayQueue[0];
      imgDisplayQueue := imgDisplayQueue[1..];
      if key == EscapeKey {
        exitProgram := true;
        imgStorageQueue := imgStorageQueue + [imgs];
      }
    }

    /** Pops one pair from the storage queue; saving it is disabled in the code. */
    method StoreImages() returns (popped: Pair)
      requires imgStorageQueue != []
      modifies this`imgStorageQueue
      ensures popped == old(imgStorageQueue)[0] && imgStorageQueue == old(imgStorageQueue)[1..]
    {
      popped := imgStorageQueue[0];
      imgStorageQueue := imgStorageQueue[1..];
    }

    method SetDataPath(path: string)
      modifies this`settings
      ensures settings == old(settings).(dataPath := path)
      ensures unchanged(this`serials, this`sortedCameraIdx, this`triggerQueue, this`imgStorageQueue, this`exitProgram)
    {
      settings := settings.(dataPath := path);
    }

    function GetExitStatus(): (b: bool)
      reads this
      ensures b <==> exitProgram
    {
      exitProgram
    }

    /** Whether the storage queue is empty. */
    function ImgQueueEmpty(): (b: bool)
      reads this
      ensures b <==> |imgStorageQueue| == 0
    {
      imgStorageQueue == []
    }
  }

  /** The escape branch as written: the popped pair is moved from into the converted pair,
      and only then pushed by copy. After the move both of its slots are null, so the copy the
      push performs is not defined. */
  method DisplayEscapeAsWritten(imgs: PairImagesRaw.PairImages) returns (pushable: bool)
    modifies imgs
    ensures imgs.Value() == MovedFrom && !pushable
  {
    var imgs2 := new PairImagesRaw.PairImages.Move(imgs);
    var imgs3 := new PairImagesRaw.PairImages.Move(imgs2);
    pushable := CopyDefined(imgs.Value());
  }
}
