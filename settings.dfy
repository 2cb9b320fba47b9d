/** config/settings.go: the capture settings, their defaults, where the
    settings file is looked for and written, and where OBS keeps its
    `service.json`. `WriteOBSConfig` is in module ObsConfig. */
module Settings {

  import opened Wrappers
  import opened Os

  datatype Settings = Settings(
    networkInterfaces: seq<string>,  // allow-list of interface descriptions; empty = automatic choice
    serverRegex: string,
    streamKeyRegex: string,
    obsConfigPath: string)

  /** The built-in server pattern: one capturing group around the whole URL. */
  const DefaultServerRegex: string := @"(rtmp://push-rtmp-[a-zA-Z0-9\-]+\.douyincdn\.com/thirdgame)"

  /** The built-in stream-key pattern: one capturing group; the optional
      `volcSecret` tail is a non-capturing `(?:…)` group. */
  const DefaultStreamKeyRegex: string :=
    @"(stream-\d+\?expire=\d+&sign=[a-f0-9]+(?:&volcSecret=[a-f0-9]+&volcTime=\d+)?)"

  const DefaultSettings: Settings := Settings([], DefaultServerRegex, DefaultStreamKeyRegex, "")

  // ---------------------------------------------------------------------
  // LoadSettings / SaveSettings: which settings file is used

  /** The two places the settings file can live:
      `config/tiktok_tool_cfg.toml` and `tiktok_tool_cfg.toml`. */
  datatype Location = ConfigDir | WorkingDir

  /** What the file system says about the `config` directory and the two files. */
  datatype Disk = Disk(configDir: Stat, file: Location -> Stat)

  /** A file inside a directory that does not exist does not exist either. */
  predicate Consistent(d: Disk) {
    IsNotExist(d.configDir) ==> IsNotExist(d.file(ConfigDir))
  }

  /** The file `LoadSettings` decodes: the one in `config/` if `os.Stat`
      succeeds on it, else the one in the working directory if `os.Stat`
      succeeds on that; any stat error counts as absent. */
  function LoadLocation(d: Disk): (r: Option<Location>)
    ensures r == Some(ConfigDir) <==> d.file(ConfigDir).Found?
    ensures r == Some(WorkingDir) <==> !d.file(ConfigDir).Found? && d.file(WorkingDir).Found?
    ensures r == None <==> !d.file(ConfigDir).Found? && !d.file(WorkingDir).Found?
  {
    if d.file(ConfigDir).Found? then Some(ConfigDir)
    else if d.file(WorkingDir).Found? then Some(WorkingDir)
    else None
  }

  /** `toml.DecodeFile(path, &CurrentSettings)`: decodes into the current
      settings (keys missing from the file keep their value) and may fail. */
  type Decoder = (Location, Settings) -> (Settings, Option<string>)

  /** `LoadSettings`: with no settings file the current settings stay and no
      error is reported; otherwise the file found first is decoded. */
  function LoadSettings(current: Settings, d: Disk, decode: Decoder): (r: (Settings, Option<string>))
    ensures LoadLocation(d) == None ==> r == (current, None)
    ensures d.file(ConfigDir).Found? ==> r == decode(ConfigDir, current)
    ensures !d.file(ConfigDir).Found? && d.file(WorkingDir).Found? ==> r == decode(WorkingDir, current)
  {
    match LoadLocation(d)
    case None => (current, None)
    case Some(l) => decode(l, current)
  }

  /** The file `SaveSettings` writes: into `config/` unless `os.Stat` says
      the directory does not exist (other stat errors keep `config/`). */
  function SaveLocation(d: Disk): (r: Location)
    ensures r == WorkingDir <==> IsNotExist(d.configDir)
  {
    if IsNotExist(d.configDir) then WorkingDir else ConfigDir
  }

  /** `SaveSettings`: the location written and the error of `os.Create` or,
      failing that, of the TOML encoder. */
  function SaveSettings(d: Disk, createErr: Location -> Option<string>, encodeErr: Option<string>)
    : (r: (Location, Option<string>))
    ensures r.0 == SaveLocation(d)
    ensures createErr(r.0).Some? ==> r.1 == createErr(r.0)
    ensures createErr(r.0).None? ==> r.1 == encodeErr
  {
    var l := SaveLocation(d);
    (l, if createErr(l).Some? then createErr(l) else encodeErr)
  }

  /** The disk after `SaveSettings` created its file. */
  function AfterSave(d: Disk): Disk {
    var l := SaveLocation(d);
    d.(file := (x: Location) => if x == l then Found else d.file(x))
  }

  /** A successful save is found again by the next load: both functions
      agree on the file whatever the state of the `config` directory. */
  lemma SaveThenLoadSameFile(d: Disk)
    requires Consistent(d)
    ensures LoadLocation(AfterSave(d)) == Some(SaveLocation(d))
  {
  }

  // ---------------------------------------------------------------------
  // GetDefaultOBSConfigPath

  /** One entry of `os.ReadDir`. */
  datatype DirEntry = DirEntry(name: string, isDir: bool)

  /** `filepath.Join` on Windows, without the cleaning of `.`/`..` elements. */
  function Join(a: string, b: string): string {
    a + "\\" + b
  }

  function ProfilesDir(appData: string): string {
    Join(Join(Join(appData, "obs-studio"), "basic"), "profiles")
  }

  function ServiceJson(appData: string, profile: string): string {
    Join(Join(ProfilesDir(appData), profile), "service.json")
  }

  /** The `service.json` of every directory in the listing, in listing order. */
  function ProfileCandidates(appData: string, entries: seq<DirEntry>): (r: seq<string>)
    ensures |r| <= |entries|
  {
    if entries == [] then []
    else
      var rest := ProfileCandidates(appData, entries[1..]);
      if entries[0].isDir then [ServiceJson(appData, entries[0].name)] + rest else rest
  }

  /** Every path `GetDefaultOBSConfigPath` tries, in the order it tries them:
      the `Untitled` and `Default` profiles, then each profile directory. */
  function Candidates(appData: string, listing: Option<seq<DirEntry>>): seq<string> {
    [ServiceJson(appData, "Untitled"), ServiceJson(appData, "Default")]
    + (if listing.Some? then ProfileCandidates(appData, listing.value) else [])
  }

  /** The first candidate `os.Stat` succeeds on, or "". */
  function FirstFound(cands: seq<string>, stat: StatFn): string {
    if cands == [] then ""
    else if stat(cands[0]).Found? then cands[0]
    else FirstFound(cands[1..], stat)
  }

  lemma {:induction false} FirstFoundIsFirst(cands: seq<string>, stat: StatFn)
    requires forall i :: 0 <= i < |cands| ==> cands[i] != ""
    ensures FirstFound(cands, stat) == "" <==> forall i :: 0 <= i < |cands| ==> !stat(cands[i]).Found?
    ensures FirstFound(cands, stat) != "" ==>
      exists k :: 0 <= k < |cands| && cands[k] == FirstFound(cands, stat) && stat(cands[k]).Found?
               && forall i :: 0 <= i < k ==> !stat(cands[i]).Found?
  {
    if cands != [] && !stat(cands[0]).Found? {
      FirstFoundIsFirst(cands[1..], stat);
      var r := FirstFound(cands, stat);
      if r != "" {
        var k :| 0 <= k < |cands[1..]| && cands[1..][k] == r && stat(cands[1..][k]).Found?
                 && forall i :: 0 <= i < k ==> !stat(cands[1..][i]).Found?;
        assert cands[k + 1] == r;
        assert forall i :: 0 <= i < k + 1 ==> !stat(cands[i]).Found? by {
          forall i | 0 <= i < k + 1 ensures !stat(cands[i]).Found? {
            if i > 0 { assert cands[i] == cands[1..][i - 1]; }
          }
        }
      } else {
        assert forall i :: 0 <= i < |cands| ==> !stat(cands[i]).Found? by {
          forall i | 0 <= i < |cands| ensures !stat(cands[i]).Found? {
            if i > 0 { assert cands[i] == cands[1..][i - 1]; }
          }
        }
      }
    }
  }

  /** `GetDefaultOBSConfigPath`: the first of the candidate paths that
      exists, `""` if none does; `listing` is the result of `os.ReadDir` on
      the profiles directory (`None` when it fails). */
  method GetDefaultOBSConfigPath(appData: string, stat: StatFn, listing: Option<seq<DirEntry>>)
    returns (path: string)
    ensures path == FirstFound(Candidates(appData, listing), stat)
  {
    var possible := [ServiceJson(appData, "Untitled"), ServiceJson(appData, "Default")];
    ghost var all := Candidates(appData, listing);
    assert all == possible + all[2..];
    var i := 0;
    while i < |possible|
      invariant 0 <= i <= |possible|
      invariant FirstFound(all, stat) == FirstFound(all[i..], stat)
    {
      if stat(possible[i]).Found? {
        return possible[i];
      }
      assert all[i..][1..] == all[i + 1..];
      i := i + 1;
    }
    if listing.Some? {
      var entries := listing.value;
      var j := 0;
      while j < |entries|
        invariant 0 <= j <= |entries|
        invariant all[2..] == ProfileCandidates(appData, entries)
        invariant FirstFound(all, stat) == FirstFound(ProfileCandidates(appData, entries[j..]), stat)
      {
        if entries[j].isDir {
          var configPath := ServiceJson(appData, entries[j].name);
          if stat(configPath).Found? {
            return configPath;
          }
        }
        assert entries[j..][1..] == entries[j + 1..];
        j := j + 1;
      }
    }
    return "";
  }

  /** Each candidate ends in `service.json`, so none is empty and the
      characterisation of FirstFound applies. */
  lemma CandidatesNonEmpty(appData: string, listing: Option<seq<DirEntry>>)
    ensures forall i :: 0 <= i < |Candidates(appData, listing)| ==> Candidates(appData, listing)[i] != ""
  {
    var c := Candidates(appData, listing);
    forall i | 0 <= i < |c| ensures c[i] != "" {
      CandidateShape(appData, if listing.Some? then listing.value else [], i - 2, c, listing);
    }
  }

  lemma CandidateShape(appData: string, entries: seq<DirEntry>, k: int, c: seq<string>, listing: Option<seq<DirEntry>>)
    requires c == Candidates(appData, listing) && entries == (if listing.Some? then listing.value else [])
    requires -2 <= k < |c| - 2
    ensures c[k + 2] != ""
  {
    if k >= 0 {
      ProfileCandidateNonEmpty(appData, entries, k);
    }
  }

  lemma {:induction false} ProfileCandidateNonEmpty(appData: string, entries: seq<DirEntry>, k: int)
    requires 0 <= k < |ProfileCandidates(appData, entries)|
    ensures ProfileCandidates(appData, entries)[k] != ""
  {
    var rest := ProfileCandidates(appData, entries[1..]);
    if entries[0].isDir {
      if k > 0 { ProfileCandidateNonEmpty(appData, entries[1..], k - 1); }
    } else {
      ProfileCandidateNonEmpty(appData, entries[1..], k);
    }
  }

  /** The search order of `GetDefaultOBSConfigPath`: it returns "" exactly
      when no candidate exists, and otherwise an existing candidate before
      which every candidate is missing. */
  lemma DefaultObsPathIsFirstExisting(appData: string, stat: StatFn, listing: Option<seq<DirEntry>>)
    ensures var c := Candidates(appData, listing);
      && (FirstFound(c, stat) == "" <==> forall i :: 0 <= i < |c| ==> !stat(c[i]).Found?)
      && (FirstFound(c, stat) != "" ==>
            exists k :: 0 <= k < |c| && c[k] == FirstFound(c, stat) && stat(c[k]).Found?
                     && forall i :: 0 <= i < k ==> !stat(c[i]).Found?)
  {
    CandidatesNonEmpty(appData, listing);
    FirstFoundIsFirst(Candidates(appData, listing), stat);
  }
}
