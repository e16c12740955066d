/**
 * The file type resolver system (d2core/d2systems/file_type_resolver.go).
 *
 * It subscribes to entities that have a FilePath but no FileType, and gives each one a FileType:
 * MPQ when the path opens as an archive, otherwise the type listed for the path's extension
 * (compared case-insensitively), otherwise Unknown or Directory according to what the
 * filesystem reports for the path.
 */
module FileTypeResolution {
  import opened Components
  import opened Ecs

  /**
   * The outside world the resolvers consult. `archives` holds the paths d2mpq.Load opens;
   * `stats` holds the paths os.Lstat (after filepath.Clean) succeeds on, each mapped to whether
   * the path is a directory.
   */
  datatype Host = Host(archives: set<string>, stats: map<string, bool>)

  /** The subscription: a FilePath and no FileType yet. */
  const FilesToCheck := Filter({FilePath}, {FileType}, {})

  /**
   * filepath.Ext: the suffix of the last path element that starts at its last '.', or "" when
   * that element has no '.'.
   */
  function Ext(path: string): (r: string)
    ensures |r| <= |path|
  {
    if path == [] then []
    else
      var last := path[|path| - 1];
      if last == '/' then []
      else if last == '.' then [last]
      else
        var e := Ext(path[..|path| - 1]);
        if e == [] then [] else e + [last]
  }

  /**
   * What filepath.Ext promises: the result is a suffix of the path that is empty or starts with
   * its only '.', holds no '/', and is empty only when no '.' follows the last '/'.
   */
  lemma {:induction false} ExtSpec(path: string)
    ensures var r := Ext(path);
      && r == path[|path| - |r|..]
      && (r != [] ==> r[0] == '.')
      && (forall i | 0 <= i < |r| :: r[i] != '/')
      && (forall i | 1 <= i < |r| :: r[i] != '.')
      && (r == [] ==> forall i | 0 <= i < |path| && path[i] == '.' ::
            exists j | i < j < |path| :: path[j] == '/')
    decreases |path|
  {
    if path != [] {
      var n := |path|;
      var init := path[..n - 1];
      var last := path[n - 1];
      if last != '/' && last != '.' {
        ExtSpec(init);
        var e := Ext(init);
        if e == [] {
          forall i | 0 <= i < n && path[i] == '.'
            ensures exists j | i < j < n :: path[j] == '/'
          {
            assert i < n - 1 && init[i] == '.';
            var j :| i < j < n - 1 && init[j] == '/';
            assert path[j] == '/';
          }
        } else {
          assert e + [last] == path[n - |e| - 1..] by {
            assert e == init[n - 1 - |e|..];
          }
        }
      }
    }
  }

  /** ASCII lower-casing of one character (strings.ToLower on the characters paths use). */
  function LowerChar(c: char): char {
    if 'A' <= c <= 'Z' then (c as int + 32) as char else c
  }

  /** strings.ToLower: each character lower-cased (see LowerExt and LowerIdempotent). */
  function Lower(s: string): string {
    seq(|s|, i requires 0 <= i < |s| => LowerChar(s[i]))
  }

  /** strings.Contains */
  predicate Contains(s: string, sub: string)
    decreases |s|
  {
    if |s| < |sub| then false
    else s[..|sub|] == sub || Contains(s[1..], sub)
  }

  const ListedExtensions: set<string> :=
    {".mpq", ".d2", ".dcc", ".dc6", ".wav", ".ds1", ".dt1", ".pl2", ".dat", ".tbl", ".txt",
     ".cof", ".json"}

  /**
   * The extension table. `ext` is already lower-cased; `path` is consulted (case-sensitively)
   * only to tell font tables from string tables.
   */
  function ExtensionType(ext: string, path: string): (r: Option<FileType>)
    ensures r.Some? <==> ext in ListedExtensions
    ensures r.Some? ==> r.value !in {FileTypeUnknown, FileTypeDirectory}
    ensures r == Some(FileTypeMPQ) <==> ext == ".mpq"
  {
    if ext == ".mpq" then Some(FileTypeMPQ)
    else if ext == ".d2" then Some(FileTypeD2)
    else if ext == ".dcc" then Some(FileTypeDCC)
    else if ext == ".dc6" then Some(FileTypeDC6)
    else if ext == ".wav" then Some(FileTypeWAV)
    else if ext == ".ds1" then Some(FileTypeDS1)
    else if ext == ".dt1" then Some(FileTypeDT1)
    else if ext == ".pl2" then Some(FileTypePaletteTransform)
    else if ext == ".dat" then Some(FileTypePalette)
    else if ext == ".tbl" then
      Some(if Contains(path, "FONT") then FileTypeFontTable else FileTypeStringTable)
    else if ext == ".txt" then Some(FileTypeDataDictionary)
    else if ext == ".cof" then Some(FileTypeCOF)
    else if ext == ".json" then Some(FileTypeJSON)
    else None
  }

  /**
   * The type determineFileType assigns to a path, or None when it assigns none (an unlisted
   * extension on a path that exists and is not a directory).
   */
  function Classify(path: string, host: Host): Option<FileType> {
    if path in host.archives then Some(FileTypeMPQ)
    else
      var listed := ExtensionType(Lower(Ext(path)), path);
      if listed.Some? then listed
      else if path !in host.stats then Some(FileTypeUnknown)
      else if host.stats[path] then Some(FileTypeDirectory)
      else None
  }

  /** The type the FileType component holds afterwards: the assigned one, or what AddFileType made. */
  function ResolvedType(path: string, host: Host): FileType {
    match Classify(path, host)
    case Some(t) => t
    case None => ZeroFileType
  }

  /**
   * determineFileType on one entity's components: with a FilePath, the entity gets a FileType
   * (and nothing else changes); without one, nothing changes.
   */
  function Resolve(c: Components, host: Host): (r: Components)
    ensures PathOf(c).None? ==> r == c
    ensures PathOf(c).Some? ==> r.Keys == c.Keys + {FileType}
    ensures PathOf(c).Some? ==> TypeOf(r) == Some(ResolvedType(PathOf(c).value, host))
    ensures forall k | k in c && k != FileType :: r[k] == c[k]
  {
    match PathOf(c)
    case None => c
    case Some(path) => Put(c, TypeP(ResolvedType(path, host)))
  }

  /** The store after every entity of `targets` has been resolved. */
  function ResolveAll(s: Store, targets: set<EID>, host: Host): (r: Store)
    ensures r.Keys == s.Keys
  {
    map e | e in s :: if e in targets then Resolve(s[e], host) else s[e]
  }

  /** The store after determineFileType on one entity. */
  function ResolveAt(s: Store, id: EID, host: Host): Store {
    if id in s then s[id := Resolve(s[id], host)] else s
  }

  /**
   * determineFileType: looks the FilePath up, adds a FileType component, then writes its type
   * step by step (archive probe, extension table, filesystem status).
   */
  method DetermineFileType(w: World, id: EID, host: Host)
    requires w.Valid()
    modifies w`comps
    ensures w.Valid()
    ensures w.comps == ResolveAt(old(w.comps), id, host)
  {
    if id !in w.comps {
      return;
    }
    var fp := PathOf(w.comps[id]);
    if fp.None? {
      return;
    }
    var path := fp.value;
    ghost var before := w.comps;
    assert Resolve(before[id], host) == Put(before[id], TypeP(ResolvedType(path, host)));
    w.AddComponent(id, TypeP(ZeroFileType));
    if path in host.archives {
      AddTwice(before, id, TypeP(ZeroFileType), TypeP(FileTypeMPQ));
      w.AddComponent(id, TypeP(FileTypeMPQ));
      return;
    }
    var ext := Lower(Ext(path));
    var listed := ExtensionType(ext, path);
    if listed.Some? {
      AddTwice(before, id, TypeP(ZeroFileType), TypeP(listed.value));
      w.AddComponent(id, TypeP(listed.value));
      return;
    }
    if path !in host.stats {
      AddTwice(before, id, TypeP(ZeroFileType), TypeP(FileTypeUnknown));
      w.AddComponent(id, TypeP(FileTypeUnknown));
      return;
    }
    if host.stats[path] {
      AddTwice(before, id, TypeP(ZeroFileType), TypeP(FileTypeDirectory));
      w.AddComponent(id, TypeP(FileTypeDirectory));
      return;
    }
    assert ResolvedType(path, host) == ZeroFileType;
  }

  /**
   * Update: every entity of the subscription is resolved, each exactly once and independently of
   * the order, and the subscription is empty afterwards.
   */
  method Update(w: World, host: Host)
    requires w.Valid()
    modifies w`comps
    ensures w.Valid()
    ensures w.comps == ResolveAll(old(w.comps), old(w.Subscription(FilesToCheck)), host)
    ensures w.Subscription(FilesToCheck) == {}
  {
    ghost var start := w.comps;
    var todo := w.Subscription(FilesToCheck);
    ghost var targets := todo;
    ghost var done: set<EID> := {};
    while todo != {}
      invariant w.Valid()
      invariant todo <= targets && done == targets - todo
      invariant w.comps.Keys == start.Keys
      invariant forall e | e in start :: w.comps[e] == if e in done then Resolve(start[e], host) else start[e]
      decreases todo
    {
      var e :| e in todo;
      DetermineFileType(w, e, host);
      todo, done := todo - {e}, done + {e};
    }
    assert w.comps == ResolveAll(start, targets, host);
    SubscriptionDrained(start, targets, host);
  }

  /** Every entity the subscription held now has a FileType, so none of them matches any more. */
  lemma SubscriptionDrained(s: Store, done: set<EID>, host: Host)
    requires done == Members(s, FilesToCheck)
    ensures Members(ResolveAll(s, done, host), FilesToCheck) == {}
  {
    var r := ResolveAll(s, done, host);
    forall e | e in r
      ensures !Matches(FilesToCheck, r[e].Keys)
    {
      if e in done {
        assert FilePath in s[e];
        assert PathOf(s[e]).Some?;
        assert FileType in Resolve(s[e], host);
      }
    }
  }

  // ---------------------------------------------------------------------------------------------
  // Properties of the classification

  /** Only entities with a FilePath and without a FileType are processed. */
  lemma OnlyUntypedPathsProcessed(s: Store)
    ensures forall e | e in Members(s, FilesToCheck) :: PathOf(s[e]).Some? && TypeOf(s[e]).None?
    ensures forall e | e in s && PathOf(s[e]).Some? && TypeOf(s[e]).None? :: e in Members(s, FilesToCheck)
  {
  }

  /** A path the archive loader opens is an MPQ, whatever its extension. */
  lemma ProbeWins(path: string, host: Host)
    requires path in host.archives
    ensures Classify(path, host) == Some(FileTypeMPQ)
  {
  }

  /** Lower-casing commutes with taking the extension. */
  lemma {:induction false} LowerExt(path: string)
    ensures Ext(Lower(path)) == Lower(Ext(path))
    decreases |path|
  {
    if path != [] {
      var init := path[..|path| - 1];
      assert Lower(path)[..|path| - 1] == Lower(init);
      LowerExt(init);
      var e := Ext(init);
      if e != [] {
        assert Lower(e + [path[|path| - 1]]) == Lower(e) + [LowerChar(path[|path| - 1])];
      }
    }
  }

  /**
   * The extension is compared case-insensitively: two paths that differ only in letter case and
   * agree on containing "FONT" get the same listed type, provided neither opens as an archive.
   */
  lemma ExtensionCaseInsensitive(p: string, q: string, host: Host)
    requires Lower(p) == Lower(q)
    requires p !in host.archives && q !in host.archives
    requires Contains(p, "FONT") <==> Contains(q, "FONT")
    requires Lower(Ext(p)) in ListedExtensions
    ensures Classify(p, host) == Classify(q, host)
  {
    LowerExt(p);
    LowerExt(q);
  }

  lemma LowerIdempotent(s: string)
    ensures Lower(Lower(s)) == Lower(s)
  {
    assert forall i | 0 <= i < |s| :: LowerChar(LowerChar(s[i])) == LowerChar(s[i]);
  }

  /** `X.DC6` and `x.dc6` are both DC6 images. */
  lemma Dc6AnyCase(host: Host)
    requires "X.DC6" !in host.archives && "x.dc6" !in host.archives
    ensures Classify("X.DC6", host) == Some(FileTypeDC6)
    ensures Classify("x.dc6", host) == Some(FileTypeDC6)
  {
    assert Ext("x.dc6") == ".dc6" by {
      assert "x.dc6"[..4] == "x.dc";
      assert "x.dc"[..3] == "x.d";
      assert "x.d"[..2] == "x.";
    }
    assert Lower(".dc6") == ".dc6";
    assert Lower("X.DC6") == "x.dc6";
    LowerExt("X.DC6");
    LowerIdempotent(Ext("X.DC6"));
  }

  /** `.tbl` is a font table when the path (case-sensitively) contains FONT, a string table otherwise. */
  lemma TableKind(path: string, host: Host)
    requires path !in host.archives && Lower(Ext(path)) == ".tbl"
    ensures Contains(path, "FONT") ==> Classify(path, host) == Some(FileTypeFontTable)
    ensures !Contains(path, "FONT") ==> Classify(path, host) == Some(FileTypeStringTable)
  {
  }

  /**
   * An unlisted extension: Unknown when the path cannot be stat'ed, Directory for a directory,
   * and otherwise no assignment, so the type stays what AddFileType made.
   */
  lemma UnlistedExtension(path: string, host: Host)
    requires path !in host.archives && Lower(Ext(path)) !in ListedExtensions
    ensures path !in host.stats ==> Classify(path, host) == Some(FileTypeUnknown)
    ensures path in host.stats && host.stats[path] ==> Classify(path, host) == Some(FileTypeDirectory)
    ensures path in host.stats && !host.stats[path] ==> Classify(path, host) == None
    ensures path in host.stats && !host.stats[path] ==> ResolvedType(path, host) == ZeroFileType
  {
  }

  /** Unknown and Directory come only from the filesystem status, never from the table. */
  lemma StatOnlyForUnlisted(path: string, host: Host)
    requires Classify(path, host) in {Some(FileTypeUnknown), Some(FileTypeDirectory), None}
    ensures path !in host.archives && Lower(Ext(path)) !in ListedExtensions
  {
  }
}
