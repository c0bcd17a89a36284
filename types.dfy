/** The storyboard's value types: scenes, drafts, projects, assets, user tiers
    and the closed string enumerations that tag a scene. */
module StoryboardTypes {
  import opened Wrappers

  /** Framing of a shot. */
  datatype ShotType = Wide | Medium | Close | ExtremeClose | OverShoulder

  /** How the camera moves during a shot. */
  datatype CameraMovement = Static | Pan | Tilt | Zoom | Dolly | Tracking

  /** Lighting style of a shot. */
  datatype Lighting = Natural | Dramatic | Soft | Harsh | Silhouette

  /** Subscription tier of a user. */
  datatype UserTier = Free | Pro | Enterprise

  /** Media kind of a library asset. */
  datatype AssetType = Image | Video | Audio

  /** The string literals the source uses for each enumeration. */
  const ShotTypeNames: set<string> := {"wide", "medium", "close", "extreme-close", "over-shoulder"}
  const CameraMovementNames: set<string> := {"static", "pan", "tilt", "zoom", "dolly", "tracking"}
  const LightingNames: set<string> := {"natural", "dramatic", "soft", "harsh", "silhouette"}
  const UserTierNames: set<string> := {"free", "pro", "enterprise"}

  function ShotTypeName(t: ShotType): (s: string)
    ensures s in ShotTypeNames
  {
    match t
    case Wide => "wide"
    case Medium => "medium"
    case Close => "close"
    case ExtremeClose => "extreme-close"
    case OverShoulder => "over-shoulder"
  }

  /** Reads a shot-type literal; exactly the five literals are accepted. */
  function ParseShotType(s: string): (r: Option<ShotType>)
    ensures r.Some? <==> s in ShotTypeNames
    ensures r.Some? ==> ShotTypeName(r.value) == s
  {
    if s == "wide" then Some(Wide)
    else if s == "medium" then Some(Medium)
    else if s == "close" then Some(Close)
    else if s == "extreme-close" then Some(ExtremeClose)
    else if s == "over-shoulder" then Some(OverShoulder)
    else None
  }

  lemma ShotTypeRoundTrip(t: ShotType)
    ensures ParseShotType(ShotTypeName(t)) == Some(t)
  {
  }

  function CameraMovementName(m: CameraMovement): (s: string)
    ensures s in CameraMovementNames
  {
    match m
    case Static => "static"
    case Pan => "pan"
    case Tilt => "tilt"
    case Zoom => "zoom"
    case Dolly => "dolly"
    case Tracking => "tracking"
  }

  /** Reads a camera-movement literal; exactly the six literals are accepted. */
  function ParseCameraMovement(s: string): (r: Option<CameraMovement>)
    ensures r.Some? <==> s in CameraMovementNames
    ensures r.Some? ==> CameraMovementName(r.value) == s
  {
    if s == "static" then Some(Static)
    else if s == "pan" then Some(Pan)
    else if s == "tilt" then Some(Tilt)
    else if s == "zoom" then Some(Zoom)
    else if s == "dolly" then Some(Dolly)
    else if s == "tracking" then Some(Tracking)
    else None
  }

  lemma CameraMovementRoundTrip(m: CameraMovement)
    ensures ParseCameraMovement(CameraMovementName(m)) == Some(m)
  {
  }

  function LightingName(l: Lighting): (s: string)
    ensures s in LightingNames
  {
    match l
    case Natural => "natural"
    case Dramatic => "dramatic"
    case Soft => "soft"
    case Harsh => "harsh"
    case Silhouette => "silhouette"
  }

  /** Reads a lighting literal; exactly the five literals are accepted. */
  function ParseLighting(s: string): (r: Option<Lighting>)
    ensures r.Some? <==> s in LightingNames
    ensures r.Some? ==> LightingName(r.value) == s
  {
    if s == "natural" then Some(Natural)
    else if s == "dramatic" then Some(Dramatic)
    else if s == "soft" then Some(Soft)
    else if s == "harsh" then Some(Harsh)
    else if s == "silhouette" then Some(Silhouette)
    else None
  }

  lemma LightingRoundTrip(l: Lighting)
    ensures ParseLighting(LightingName(l)) == Some(l)
  {
  }

  function UserTierName(t: UserTier): (s: string)
    ensures s in UserTierNames
  {
    match t
    case Free => "free"
    case Pro => "pro"
    case Enterprise => "enterprise"
  }

  /** Reads a tier literal; exactly "free", "pro" and "enterprise" are accepted. */
  function ParseUserTier(s: string): (r: Option<UserTier>)
    ensures r.Some? <==> s in UserTierNames
    ensures r.Some? ==> UserTierName(r.value) == s
  {
    if s == "free" then Some(Free)
    else if s == "pro" then Some(Pro)
    else if s == "enterprise" then Some(Enterprise)
    else None
  }

  lemma UserTierRoundTrip(t: UserTier)
    ensures ParseUserTier(UserTierName(t)) == Some(t)
  {
  }

  /** One shot of the storyboard. `id`, `title`, `description`, `duration`
      (seconds) and `position` are required; the rest are optional. */
  datatype Scene = Scene(
    id: string,
    title: string,
    description: string,
    imageUrl: Option<string>,
    duration: nat,
    position: nat,
    notes: Option<string>,
    shotType: Option<ShotType>,
    cameraMovement: Option<CameraMovement>,
    lighting: Option<Lighting>)

  /** A scene without `id` and `position`: what callers hand to "add". */
  datatype SceneDraft = SceneDraft(
    title: string,
    description: string,
    imageUrl: Option<string>,
    duration: nat,
    notes: Option<string>,
    shotType: Option<ShotType>,
    cameraMovement: Option<CameraMovement>,
    lighting: Option<Lighting>)

  /** The draft part of a scene: every field except `id` and `position`. */
  function DraftOf(s: Scene): SceneDraft
  {
    SceneDraft(s.title, s.description, s.imageUrl, s.duration, s.notes,
               s.shotType, s.cameraMovement, s.lighting)
  }

  /** Completes a draft with an id and a position (the spread `{...draft, id, position}`).
      Dropping id and position again gives back the draft, and any scene is
      rebuilt from its own draft, id and position. */
  function FromDraft(d: SceneDraft, id: string, position: nat): (s: Scene)
    ensures s.id == id && s.position == position
    ensures DraftOf(s) == d
  {
    Scene(id, d.title, d.description, d.imageUrl, d.duration, position, d.notes,
          d.shotType, d.cameraMovement, d.lighting)
  }

  lemma SceneFromOwnDraft(s: Scene)
    ensures FromDraft(DraftOf(s), s.id, s.position) == s
  {
  }

  /** The project aggregate. Timestamps are modelled as a logical clock. */
  datatype StoryboardProject = StoryboardProject(
    id: string,
    title: string,
    description: string,
    scenes: seq<Scene>,
    createdAt: nat,
    updatedAt: nat,
    totalDuration: nat)

  /** A media item offered by the asset library. */
  datatype Asset = Asset(
    id: string,
    title: string,
    url: string,
    thumbnail: string,
    kind: AssetType,
    tags: seq<string>,
    author: Option<string>,
    source: Option<string>)

  /** A signed-in user. */
  datatype User = User(id: string, name: string, email: string, tier: UserTier, avatar: Option<string>)
}
