/**
 * The file source resolver system (d2core/d2systems/file_source_resolver.go).
 *
 * It subscribes to entities that have a FilePath and a FileType but no FileSource. An MPQ-typed
 * entity gets an archive source when the archive opens and is demoted to Unknown when it does
 * not; a Directory-typed entity always gets a filesystem source rooted at its path; every other
 * type is left alone.
 */
module FileSourceResolution {
  import opened Components
  import opened Ecs
  import Types = FileTypeResolution

  /** The subscription: a FilePath and a FileType but no FileSource yet. */
  const SourcesToResolve := Filter({FilePath, FileType}, {FileSource}, {})

  datatype Result<+T> = Ok(value: T) | Err

  /** makeMpqSource: fails exactly when the archive does not open. */
  function MakeMpqSource(path: string, host: Types.Host): (r: Result<Source>)
    ensures r.Ok? <==> path in host.archives
    ensures r.Ok? ==> r.value == MpqSource(path)
  {
    if path in host.archives then Ok(MpqSource(path)) else Err
  }

  /** makeFileSystemSource never fails: the source is rooted at the given path. */
  function MakeFileSystemSource(path: string): (r: Result<Source>)
    ensures r.Ok? && r.value.FsSource? && r.value.rootDir == path
  {
    Ok(FsSource(path))
  }

  /**
   * processSourceEntity on one entity's components. Only the FileType and FileSource components
   * can change, and a FileSource is only ever added, never replaced by another kind of change.
   */
  function ProcessSource(c: Components, host: Types.Host): (r: Components)
    ensures PathOf(c).None? || TypeOf(c).None? ==> r == c
    ensures c.Keys <= r.Keys <= c.Keys + {FileSource}
    ensures forall k | k in c && k != FileType && k != FileSource :: r[k] == c[k]
  {
    if PathOf(c).None? || TypeOf(c).None? then c
    else
      var path := PathOf(c).value;
      match TypeOf(c).value
      case FileTypeUnknown => c
      case FileTypeMPQ =>
        (match MakeMpqSource(path, host)
         case Err => Put(c, TypeP(FileTypeUnknown))
         case Ok(source) => Put(c, SourceP(source)))
      case FileTypeDirectory =>
        // makeFileSystemSource never fails, so its error branch is never taken
        Put(c, SourceP(MakeFileSystemSource(path).value))
      case _ => c
  }

  function ProcessAt(s: Store, id: EID, host: Types.Host): Store {
    if id in s then s[id := ProcessSource(s[id], host)] else s
  }

  function ProcessAll(s: Store, targets: set<EID>, host: Types.Host): (r: Store)
    ensures r.Keys == s.Keys
  {
    map e | e in s :: if e in targets then ProcessSource(s[e], host) else s[e]
  }

  /** processSourceEntity */
  method ProcessSourceEntity(w: World, id: EID, host: Types.Host)
    requires w.Valid()
    modifies w`comps
    ensures w.Valid()
    ensures w.comps == ProcessAt(old(w.comps), id, host)
  {
    if id !in w.comps {
      return;
    }
    var fp := PathOf(w.comps[id]);
    if fp.None? {
      return;
    }
    var ft := TypeOf(w.comps[id]);
    if ft.None? {
      return;
    }
    match ft.value
    case FileTypeUnknown =>
      return;
    case FileTypeMPQ =>
      var instance := MakeMpqSource(fp.value, host);
      if instance.Err? {
        w.AddComponent(id, TypeP(FileTypeUnknown));
        return;
      }
      w.AddComponent(id, SourceP(instance.value));
    case FileTypeDirectory =>
      var instance := MakeFileSystemSource(fp.value);
      w.AddComponent(id, SourceP(instance.value));
    case _ =>
  }

  /**
   * Update: every entity of the subscription is processed once. Afterwards no member of the
   * subscription is typed MPQ or Directory: those either got a source or were demoted.
   */
  method Update(w: World, host: Types.Host)
    requires w.Valid()
    modifies w`comps
    ensures w.Valid()
    ensures w.comps == ProcessAll(old(w.comps), old(w.Subscription(SourcesToResolve)), host)
    ensures forall e | e in w.Subscription(SourcesToResolve) ::
      TypeOf(w.comps[e]) != Some(FileTypeMPQ) && TypeOf(w.comps[e]) != Some(FileTypeDirectory)
  {
    ghost var start := w.comps;
    var todo := w.Subscription(SourcesToResolve);
    ghost var targets := todo;
    ghost var done: set<EID> := {};
    while todo != {}
      invariant w.Valid()
      invariant todo <= targets && done == targets - todo
      invariant w.comps.Keys == start.Keys
      invariant forall e | e in start ::
        w.comps[e] == if e in done then ProcessSource(start[e], host) else start[e]
      decreases todo
    {
      var e :| e in todo;
      ProcessSourceEntity(w, e, host);
      todo, done := todo - {e}, done + {e};
    }
    assert w.comps == ProcessAll(start, targets, host);
    NoTypedLeftovers(start, host);
  }

  lemma NoTypedLeftovers(s: Store, host: Types.Host)
    ensures var r := ProcessAll(s, Members(s, SourcesToResolve), host);
      forall e | e in Members(r, SourcesToResolve) ::
        TypeOf(r[e]) != Some(FileTypeMPQ) && TypeOf(r[e]) != Some(FileTypeDirectory)
  {
    var targets := Members(s, SourcesToResolve);
    var r := ProcessAll(s, targets, host);
    forall e | e in Members(r, SourcesToResolve)
      ensures TypeOf(r[e]) != Some(FileTypeMPQ) && TypeOf(r[e]) != Some(FileTypeDirectory)
    {
      if e !in targets {
        assert false;
      }
      OutcomeLeavesNoSourcelessArchive(s[e], host);
    }
  }

  /** A processed MPQ- or Directory-typed entity ends with a FileSource or demoted to Unknown. */
  lemma OutcomeLeavesNoSourcelessArchive(c: Components, host: Types.Host)
    requires PathOf(c).Some? && TypeOf(c).Some?
    ensures var r := ProcessSource(c, host);
      FileSource !in r ==> TypeOf(r) != Some(FileTypeMPQ) && TypeOf(r) != Some(FileTypeDirectory)
  {
  }

  // ---------------------------------------------------------------------------------------------
  // Properties of processSourceEntity

  /** Only entities with a FilePath and a FileType but no FileSource are processed. */
  lemma OnlyTypedSourcelessProcessed(s: Store)
    ensures forall e | e in Members(s, SourcesToResolve) ::
      PathOf(s[e]).Some? && TypeOf(s[e]).Some? && FileSource !in s[e]
  {
  }

  /** An Unknown type changes nothing. */
  lemma UnknownUnchanged(c: Components, host: Types.Host)
    requires TypeOf(c) == Some(FileTypeUnknown)
    ensures ProcessSource(c, host) == c
  {
  }

  /**
   * An MPQ type: when the archive opens the entity gains an archive source for its path and keeps
   * its type; when it does not, the type becomes Unknown and no source is added.
   */
  lemma MpqOutcome(c: Components, host: Types.Host)
    requires PathOf(c).Some? && TypeOf(c) == Some(FileTypeMPQ) && FileSource !in c
    ensures var r := ProcessSource(c, host);
      var path := PathOf(c).value;
      && (path in host.archives ==>
            r.Keys == c.Keys + {FileSource} && r[FileSource] == SourceP(MpqSource(path))
            && TypeOf(r) == Some(FileTypeMPQ))
      && (path !in host.archives ==> r.Keys == c.Keys && TypeOf(r) == Some(FileTypeUnknown))
  {
  }

  /** A Directory type always gains a filesystem source rooted at the entity's path. */
  lemma DirectoryAlwaysSourced(c: Components, host: Types.Host)
    requires PathOf(c).Some? && TypeOf(c) == Some(FileTypeDirectory)
    ensures var r := ProcessSource(c, host);
      r[FileSource] == SourceP(FsSource(PathOf(c).value)) && TypeOf(r) == Some(FileTypeDirectory)
  {
  }

  /** Any other type leaves every component as it was. */
  lemma OtherTypesUnchanged(c: Components, host: Types.Host)
    requires TypeOf(c).Some?
    requires TypeOf(c).value !in {FileTypeUnknown, FileTypeMPQ, FileTypeDirectory}
    ensures ProcessSource(c, host) == c
  {
  }

  // ---------------------------------------------------------------------------------------------
  // The two resolvers together

  /** A new file entity: only a FilePath. */
  function PathOnly(path: string): Components {
    map[FilePath := PathP(path)]
  }

  /** The type resolver, then the source resolver, on one new file entity. */
  function TypeThenSource(path: string, host: Types.Host): Components {
    ProcessSource(Types.Resolve(PathOnly(path), host), host)
  }

  /**
   * Both resolvers consult the same archive loader, so a path typed MPQ by the probe always gets
   * an archive source; a path typed MPQ only by its ".mpq" extension that does not open ends
   * Unknown without a source; a path that stats as a directory gets a directory source.
   */
  lemma PipelineOutcomes(path: string, host: Types.Host)
    ensures path in host.archives ==>
      TypeThenSource(path, host)[FileSource] == SourceP(MpqSource(path))
    ensures path !in host.archives && Types.Lower(Types.Ext(path)) == ".mpq" ==>
      FileSource !in TypeThenSource(path, host)
      && TypeOf(TypeThenSource(path, host)) == Some(FileTypeUnknown)
    ensures Types.Classify(path, host) == Some(FileTypeDirectory) ==>
      TypeThenSource(path, host)[FileSource] == SourceP(FsSource(path))
  {
    var c := PathOnly(path);
    assert PathOf(c) == Some(path);
    var t := Types.Resolve(c, host);
    assert TypeOf(t) == Some(Types.ResolvedType(path, host));
    if path !in host.archives && Types.Lower(Types.Ext(path)) == ".mpq" {
      assert Types.ResolvedType(path, host) == FileTypeMPQ;
      MpqOutcome(t, host);
    }
  }

  // ---------------------------------------------------------------------------------------------
  // mpqSource.cleanMpqPath

  function SwapSlash(ch: char): char {
    if ch == '/' then '\\' else ch
  }

  /** strings.ReplaceAll(path, "/", "\\") */
  function ReplaceSlashes(s: string): (r: string)
    ensures |r| == |s|
    ensures forall i | 0 <= i < |s| :: r[i] == SwapSlash(s[i])
  {
    if s == [] then [] else [SwapSlash(s[0])] + ReplaceSlashes(s[1..])
  }

  /**
   * cleanMpqPath: every '/' becomes '\', then one leading '\' is dropped. The Go code indexes the
   * first character, so the path must not be empty.
   */
  function CleanMpqPath(path: string): (r: string)
    requires |path| > 0
    ensures forall i | 0 <= i < |r| :: r[i] != '/'
    ensures |r| == |path| - (if path[0] == '/' || path[0] == '\\' then 1 else 0)
    ensures forall i | 0 <= i < |r| :: r[i] == SwapSlash(path[i + |path| - |r|])
  {
    var replaced := ReplaceSlashes(path);
    if replaced[0] == '\\' then replaced[1..] else replaced
  }

  /** The output is one shorter exactly when the rewritten path starts with '\'. */
  lemma CleanMpqPathLength(path: string)
    requires |path| > 0
    ensures |CleanMpqPath(path)| == |path| - 1 <==> ReplaceSlashes(path)[0] == '\\'
    ensures |CleanMpqPath(path)| == |path| <==> ReplaceSlashes(path)[0] != '\\'
  {
  }

  /** Cleaning is idempotent on its own output whenever that output does not start with '\'. */
  lemma CleanMpqPathStable(path: string)
    requires |path| > 0
    requires var r := CleanMpqPath(path); |r| > 0 && r[0] != '\\'
    ensures CleanMpqPath(CleanMpqPath(path)) == CleanMpqPath(path)
  {
    var r := CleanMpqPath(path);
    assert ReplaceSlashes(r) == r;
  }
}
