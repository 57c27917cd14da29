/**
  The scene (class Scene): one dataset and one set of render settings, and
  the project files that store them. A project file holds the dataset's
  path followed by the render settings. When the stored path no longer
  exists, opening the project looks for a file of the same name in a fixed
  list of "VolumeData" directories, and then next to the project file.
  The file system is a function from paths to file entries.
*/
module Scenes {
  import opened DataStream
  import opened TransFunc
  import Volume
  import RenderProps

  /** The directories searched, in order, for a dataset whose stored path is gone. */
  const VOLUMEDATA_PATHS: seq<string> :=
    ["/VolumeData/", "./VolumeData/", "../VolumeData/", "../../VolumeData/", "../../../VolumeData/"]

  type FileSystem = string -> FileEntry<Volume.VolumeFile>

  /** QFileInfo::exists: the file system has an entry at `p`. */
  predicate Exists(fs: FileSystem, p: string)
  {
    !fs(p).Missing?
  }

  /** QString::lastIndexOf('/'): the index of the last slash, or -1 without one. */
  function LastSlash(s: string): (r: int)
    ensures -1 <= r < |s|
    ensures r >= 0 ==> s[r] == '/'
    ensures forall k :: r < k < |s| ==> s[k] != '/'
  {
    if |s| == 0 then -1
    else if s[|s| - 1] == '/' then |s| - 1
    else LastSlash(s[..|s| - 1])
  }

  /** The file name: everything after the last slash. */
  function BaseName(s: string): string
  {
    s[LastSlash(s) + 1..]
  }

  /** The directory part: everything up to and including the last slash. */
  function DirPrefix(s: string): string
  {
    s[..LastSlash(s) + 1]
  }

  /**
    A path splits into its directory part and its file name; the file name
    holds no slash, and the directory part is empty or ends in a slash.
  */
  lemma SplitPath(s: string)
    ensures DirPrefix(s) + BaseName(s) == s
    ensures '/' !in BaseName(s)
    ensures DirPrefix(s) == [] || DirPrefix(s)[|DirPrefix(s)| - 1] == '/'
  {
    var n := LastSlash(s) + 1;
    assert s[..n] + s[n..] == s;
    forall k | 0 <= k < |BaseName(s)|
      ensures BaseName(s)[k] != '/'
    {
      assert BaseName(s)[k] == s[n + k];
    }
  }

  /** The candidate directory `i` is the first one holding a file called `name`. */
  predicate FirstFound(fs: FileSystem, name: string, i: int)
  {
    0 <= i < |VOLUMEDATA_PATHS| && Exists(fs, VOLUMEDATA_PATHS[i] + name) &&
    forall j :: 0 <= j < i ==> !Exists(fs, VOLUMEDATA_PATHS[j] + name)
  }

  /**
    `r` is where opening a project looks for a dataset stored as `stored`
    in a project file at `project`: the stored path itself if it exists;
    otherwise its file name in the first of VOLUMEDATA_PATHS that holds it;
    otherwise its file name next to the project file.
  */
  ghost predicate IsResolution(fs: FileSystem, stored: string, project: string, r: string)
  {
    if Exists(fs, stored) then r == stored
    else
      var name := BaseName(stored);
      (exists i :: FirstFound(fs, name, i) && r == VOLUMEDATA_PATHS[i] + name) ||
      ((forall j :: 0 <= j < |VOLUMEDATA_PATHS| ==> !Exists(fs, VOLUMEDATA_PATHS[j] + name)) &&
       r == DirPrefix(project) + name)
  }

  /** There is only one resolution of a stored path. */
  lemma ResolutionUnique(fs: FileSystem, stored: string, project: string, r1: string, r2: string)
    requires IsResolution(fs, stored, project, r1) && IsResolution(fs, stored, project, r2)
    ensures r1 == r2
  {
    if !Exists(fs, stored) {
      var name := BaseName(stored);
      if i1 :| FirstFound(fs, name, i1) && r1 == VOLUMEDATA_PATHS[i1] + name {
        if i2 :| FirstFound(fs, name, i2) && r2 == VOLUMEDATA_PATHS[i2] + name {
          assert !(i1 < i2) && !(i2 < i1);
        }
      }
    }
  }

  /** A resolution that is not the stored path ends in the stored path's file name. */
  lemma ResolutionKeepsName(fs: FileSystem, stored: string, project: string, r: string)
    requires IsResolution(fs, stored, project, r)
    ensures !Exists(fs, stored) ==>
      |BaseName(stored)| <= |r| && r[|r| - |BaseName(stored)|..] == BaseName(stored)
  {
    if !Exists(fs, stored) {
      var name := BaseName(stored);
      if i :| FirstFound(fs, name, i) && r == VOLUMEDATA_PATHS[i] + name {
        assert r[|VOLUMEDATA_PATHS[i]|..] == name;
      } else {
        assert r[|DirPrefix(project)|..] == name;
      }
    }
  }

  /**
    Resolves the dataset path stored in a project file at `project`, trying
    the candidate directories in order.
  */
  method ResolveVolumePath(fs: FileSystem, stored: string, project: string) returns (r: string)
    ensures IsResolution(fs, stored, project, r)
  {
    r := stored;
    if !Exists(fs, r) {
      r := r[LastSlash(r) + 1..];
      var i := 0;
      while i < 5 && !Exists(fs, VOLUMEDATA_PATHS[i] + r)
        invariant 0 <= i <= 5
        invariant r == BaseName(stored)
        invariant forall j :: 0 <= j < i ==> !Exists(fs, VOLUMEDATA_PATHS[j] + r)
      {
        i := i + 1;
      }
      ghost var name := r;
      if i < 5 {
        assert FirstFound(fs, name, i);
        r := VOLUMEDATA_PATHS[i] + r;
      } else {
        r := project[..LastSlash(project) + 1] + r;
        assert r == DirPrefix(project) + name;
      }
    }
  }

  /** A project file: the dataset path, then the render settings and the transfer function. */
  function ProjectTokens(volumePath: string, st: RenderProps.Settings, cs: seq<Colors.Color>): (r: seq<Token>)
    ensures |r| == 14 + |cs|
  {
    [StrTok(volumePath)] + RenderProps.SettingsTokens(st) + TfTokens(cs)
  }

  /** Opening reads back, in the same order, what saving wrote. */
  lemma ProjectFileRoundTrip(volumePath: string, st: RenderProps.Settings, cs: seq<Colors.Color>, after: seq<Token>)
    ensures var s := ProjectTokens(volumePath, st, cs) + after;
      ReadStr(s, 0).0 == volumePath &&
      RenderProps.ReadSettings(s, 1).0 == st &&
      ReadInt(s, 13).0 == |cs| &&
      ReadColors(s, 14, |cs|) == cs
  {
    var s := ProjectTokens(volumePath, st, cs) + after;
    RenderProps.ProjectRoundTrip([StrTok(volumePath)], st, cs, after);
    assert s == [StrTok(volumePath)] + RenderProps.SettingsTokens(st) + TfTokens(cs) + after;
  }

  class Scene {
    const volume: Volume.VolumeData
    const renderProps: RenderProps.VolumeRenderProps

    ghost predicate Valid()
      reads this, volume, renderProps, renderProps.transFunc
    {
      volume.Valid() && renderProps.transFunc != null && renderProps.transFunc.Valid()
    }

    /** An empty dataset and default render settings. */
    constructor ()
      ensures Valid() && fresh(volume) && fresh(renderProps) && fresh(renderProps.transFunc)
      ensures !volume.ready && volume.filePath == ""
      ensures renderProps.Current() == RenderProps.DefaultSettings
    {
      volume := new Volume.VolumeData();
      renderProps := new RenderProps.VolumeRenderProps();
    }

    /**
      The contents written to a project file: nothing when the file cannot
      be created, otherwise the dataset path followed by the render settings.
    */
    method SaveProject(canCreate: bool) returns (written: bool, contents: seq<Token>)
      requires Valid()
      ensures written == canCreate
      ensures !canCreate ==> contents == []
      ensures canCreate ==>
        contents == ProjectTokens(volume.filePath, renderProps.Current(), renderProps.transFunc.colors[..])
    {
      contents := [];
      written := false;
      if !canCreate {
        return;
      }
      contents := contents + [StrTok(volume.filePath)];
      contents := renderProps.SaveTo(contents);
      written := true;
    }

    /**
      Opens the project file at `path`, whose entry is `file`. A missing or
      unreadable file changes nothing. Otherwise the stored dataset path is
      resolved; the dataset is reloaded from the file system only when the
      resolved path differs from the dataset's current path, and then the
      render settings and the transfer function are read.
    */
    method OpenProject(path: string, file: FileEntry<seq<Token>>, fs: FileSystem)
      returns (resolved: string, reloaded: bool)
      requires Valid()
      requires forall p :: fs(p).Readable? ==> Volume.WellFormed(fs(p).contents)
      requires file.Readable? ==> ReadInt(file.contents, 13).0 >= 0
      modifies volume, renderProps`stepSize, renderProps`mode, renderProps`lightingMode,
        renderProps`lightPos, renderProps`shadowDimin, renderProps`lightDirectional,
        renderProps`lightIntensity, renderProps`lightBaseIntensity, renderProps`lightSegmentLength,
        renderProps`lightOpacityBaseStep, renderProps`scatteringRadius, renderProps`scatteringStepCount,
        renderProps`signals, renderProps.transFunc
      ensures Valid()
      ensures !file.Readable? ==>
        !reloaded && unchanged(volume) && unchanged(renderProps) && unchanged(renderProps.transFunc)
      ensures file.Readable? ==>
        var s := file.contents;
        IsResolution(fs, ReadStr(s, 0).0, path, resolved) &&
        reloaded == (resolved != old(volume.filePath)) &&
        renderProps.Current() == RenderProps.ReadSettings(s, 1).0 &&
        renderProps.transFunc.size == ReadInt(s, 13).0 &&
        renderProps.transFunc.colors[..] == ReadColors(s, 14, renderProps.transFunc.size) &&
        renderProps.signals == old(renderProps.signals) +
          RenderProps.LoadSignals(renderProps.transFunc in renderProps.changeSources,
                                  renderProps.transFunc in renderProps.alphaSources)
      ensures !(reloaded && fs(resolved).Readable?) ==> unchanged(volume)
      ensures reloaded && fs(resolved).Readable? ==> volume.ready && volume.filePath == resolved
      ensures reloaded && fs(resolved).Readable? ==>
        var f := fs(resolved).contents;
        Volume.WellFormed(f) &&
        var bc := Volume.ByteCountOf(f);
        volume.byteCount == bc && volume.properties == Volume.PropsOf(f) &&
        volume.data[..] == Volume.SwapBytes(f.payload, bc) &&
        volume.histogram != null && volume.lastBuckets == 256 &&
        volume.histogram[..] == Volume.Histogram(Volume.SamplesBE(f.payload, bc), Volume.Pow256(bc),
                                                 volume.properties.minValue, volume.properties.maxValue, 256)
    {
      resolved, reloaded := "", false;
      if !file.Readable? {
        return;
      }
      var s := file.contents;
      var (stored, next) := ReadStr(s, 0);
      resolved := ResolveVolumePath(fs, stored, path);
      if resolved != volume.filePath {
        reloaded := true;
        volume.LoadFrom(resolved, fs(resolved));
      }
      var end := renderProps.LoadFrom(s, next);
    }
  }
}
