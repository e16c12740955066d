/**
 * Component kinds and their payloads, as the systems in d2core/d2systems use them.
 *
 * Each kind has one payload variant; a component set (`Components`) maps a kind to a payload of
 * that kind, which is what akara's one-map-per-kind storage guarantees. Kinds whose contents no
 * modelled system reads (FileHandle, GameConfig, the parsed asset kinds, ...) carry a `Marker`.
 */
module Components {

  datatype Option<+T> = None | Some(value: T)

  /** The file type enumeration (d2enum.FileType). */
  datatype FileType =
    | FileTypeUnknown
    | FileTypeMPQ
    | FileTypeD2
    | FileTypeDCC
    | FileTypeDC6
    | FileTypeWAV
    | FileTypeDS1
    | FileTypeDT1
    | FileTypePaletteTransform
    | FileTypePalette
    | FileTypeStringTable
    | FileTypeFontTable
    | FileTypeDataDictionary
    | FileTypeCOF
    | FileTypeJSON
    | FileTypeDirectory

  /** The type held by a freshly added FileType component (the enumeration's zero value). */
  const ZeroFileType := FileTypeUnknown

  datatype Kind =
    | FilePath | FileType | FileSource | FileHandle
    | GameConfig | StringTable | DataDictionary | Palette | PaletteTransform
    | Cof | Dc6 | Dcc | Ds1 | Dt1 | Wav | AnimationData
    | Position | Velocity | Sprite | Texture | Origin | SegmentedSprite
    | Alpha | Viewport | Priority

  /** Where the files below a FileSource come from: an opened archive or a directory. */
  datatype Source = MpqSource(archivePath: string) | FsSource(rootDir: string)

  /** One animation frame of a decoded sprite: its size and its drawing offset. */
  datatype Frame = Frame(width: int, height: int, offsetX: int, offsetY: int)

  /**
   * The renderer-agnostic sprite object (d2interface.Sprite): its frames, the current frame
   * index and whether it has been bound to a renderer.
   */
  datatype SpriteObj = SpriteObj(frames: seq<Frame>, current: nat, bound: bool)

  /** A renderer surface; the model identifies it by the frame it shows. */
  datatype Surface = FrameSurface(frame: nat)

  datatype Payload =
    | PathP(path: string)
    | TypeP(fileType: FileType)
    | SourceP(source: Source)
    | PositionP(px: int, py: int)
    | VelocityP(vx: int, vy: int)
    | SpriteP(sprite: Option<SpriteObj>)
    | TextureP(surface: Surface)
    | OriginP(ox: int, oy: int)
    | SegmentedP(xsegments: int, ysegments: int, frameOffset: int)
    | PaletteP(palette: nat)
    | Dc6P(dc6: nat)
    | DccP(dcc: nat)
    | AlphaP(alpha: real)
    | ViewportP(width: int, height: int)
    | PriorityP(priority: int)
    | Marker(kind: Kind)

  function KindOf(p: Payload): Kind {
    match p
    case PathP(_) => FilePath
    case TypeP(_) => FileType
    case SourceP(_) => FileSource
    case PositionP(_, _) => Position
    case VelocityP(_, _) => Velocity
    case SpriteP(_) => Sprite
    case TextureP(_) => Texture
    case OriginP(_, _) => Origin
    case SegmentedP(_, _, _) => SegmentedSprite
    case PaletteP(_) => Palette
    case Dc6P(_) => Dc6
    case DccP(_) => Dcc
    case AlphaP(_) => Alpha
    case ViewportP(_, _) => Viewport
    case PriorityP(_) => Priority
    case Marker(k) => k
  }

  /** `p` is a payload of kind `k`; a marker only stands for a kind without a variant of its own. */
  predicate HasKind(p: Payload, k: Kind) {
    match k
    case FilePath => p.PathP?
    case FileType => p.TypeP?
    case FileSource => p.SourceP?
    case Position => p.PositionP?
    case Velocity => p.VelocityP?
    case Sprite => p.SpriteP?
    case Texture => p.TextureP?
    case Origin => p.OriginP?
    case SegmentedSprite => p.SegmentedP?
    case Palette => p.PaletteP?
    case Dc6 => p.Dc6P?
    case Dcc => p.DccP?
    case Alpha => p.AlphaP?
    case Viewport => p.ViewportP?
    case Priority => p.PriorityP?
    case _ => p == Marker(k)
  }

  /** A payload that can be stored: it has the kind it is filed under. */
  predicate WellFormed(p: Payload) {
    HasKind(p, KindOf(p))
  }

  /** The components of one entity: every kind maps to a payload of that kind. */
  predicate KindsMatch(c: map<Kind, Payload>) {
    forall k | k in c :: HasKind(c[k], k)
  }

  type Components = c: map<Kind, Payload> | KindsMatch(c)
    witness map[]

  /** Adding a component overwrites any component of the same kind. */
  function Put(c: Components, p: Payload): (r: Components)
    requires WellFormed(p)
    ensures r.Keys == c.Keys + {KindOf(p)}
    ensures r[KindOf(p)] == p
    ensures forall k | k in c && k != KindOf(p) :: r[k] == c[k]
  {
    c[KindOf(p) := p]
  }

  // Typed lookups (the GetX methods of the component factories): None means "not found".

  function PathOf(c: Components): Option<string> {
    if FilePath in c then Some(c[FilePath].path) else None
  }

  function TypeOf(c: Components): Option<FileType> {
    if FileType in c then Some(c[FileType].fileType) else None
  }

  function SpriteOf(c: Components): Option<Option<SpriteObj>> {
    if Sprite in c then Some(c[Sprite].sprite) else None
  }

  function PositionOf(c: Components): Option<(int, int)> {
    if Position in c then Some((c[Position].px, c[Position].py)) else None
  }

  function VelocityOf(c: Components): Option<(int, int)> {
    if Velocity in c then Some((c[Velocity].vx, c[Velocity].vy)) else None
  }
}
