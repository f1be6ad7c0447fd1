/**
 * The map view: the pin registry, the map-type mapping, the guarded
 * credential setters, the traffic flag and, on the phone, one map icon per
 * pin kept up to date by a property-name listener.
 */
module MapViews {
  import opened Wrappers
  import opened Notifications
  import opened Pushpin

  /** The two compile-time variants of the application. */
  datatype Platform = WindowsApp | WindowsPhoneApp

  /** The application's map types; their underlying values are 0, 1 and 2. */
  datatype MapTypeEnum = Aerial | Birdseye | Road

  function EnumValue(t: MapTypeEnum): int {
    match t
    case Aerial => 0
    case Birdseye => 1
    case Road => 2
  }

  /** The Windows map control's map types. */
  datatype BingMapType = BingAerial | BingBirdseye | BingRoad

  /** The phone map control's styles. */
  datatype PhoneMapStyle = StyleAerial | StyleAerialWithRoads | StyleTerrain

  /** What the platform control is told to draw. */
  datatype Display = Bing(mapType: BingMapType) | Phone(style: PhoneMapStyle)

  /**
   * SetMapType's switch. It takes the enum's underlying value, since an enum
   * variable may hold any integer; every value outside Aerial and Birdseye
   * falls into the Road/default branch.
   */
  function DisplayFor(platform: Platform, value: int): (d: Display)
    ensures d.Bing? <==> platform == WindowsApp
    ensures value == EnumValue(Aerial) ==>
      d == if platform == WindowsApp then Bing(BingAerial) else Phone(StyleAerial)
    ensures value == EnumValue(Birdseye) ==>
      d == if platform == WindowsApp then Bing(BingBirdseye) else Phone(StyleAerialWithRoads)
    ensures value != EnumValue(Aerial) && value != EnumValue(Birdseye) ==>
      d == if platform == WindowsApp then Bing(BingRoad) else Phone(StyleTerrain)
  {
    match platform
    case WindowsApp =>
      if value == 0 then Bing(BingAerial)
      else if value == 1 then Bing(BingBirdseye)
      else Bing(BingRoad)
    case WindowsPhoneApp =>
      if value == 0 then Phone(StyleAerial)
      else if value == 1 then Phone(StyleAerialWithRoads)
      else Phone(StyleTerrain)
  }

  /** The three named map types give three different displays on either platform. */
  lemma DisplayForDistinguishesNamedTypes(platform: Platform, s: MapTypeEnum, t: MapTypeEnum)
    requires s != t
    ensures DisplayFor(platform, EnumValue(s)) != DisplayFor(platform, EnumValue(t))
  {
  }

  /** The phone's icon for a pin. `title` is the icon's title, which can become null. */
  datatype MapIcon = MapIcon(title: Option<string>, image: PushpinKey, location: Geoposition)

  /** The camera request last handed to the map control. */
  datatype Camera =
    | InitialView
    | CenterZoom(center: Geoposition, zoom: real)
    | Bounds(points: seq<Geoposition>)

  /**
   * The map view's logical state. `credentials` is the Windows control's
   * credential string, `mapServiceToken` the phone control's token;
   * `listening` says whether anything handles the view's own PropertyChanged.
   */
  datatype MapView = MapView(
    platform: Platform,
    pins: seq<Pin>,
    icons: seq<MapIcon>,
    showTraffic: bool,
    credentials: Option<string>,
    mapServiceToken: Option<string>,
    display: Option<Display>,
    camera: Camera,
    listening: bool)

  /** On the phone every registered pin has its icon at the same index; Windows keeps none. */
  predicate Valid(v: MapView) {
    match v.platform
    case WindowsPhoneApp => |v.icons| == |v.pins|
    case WindowsApp => v.icons == []
  }

  function NewMapView(platform: Platform, listening: bool): (v: MapView)
    ensures GetPushpinList(v) == []
    ensures !ShowTraffic(v)
    ensures Valid(v)
  {
    MapView(platform, [], [], false, None, None, None, InitialView, listening)
  }

  /** The registry itself, not a copy. */
  function GetPushpinList(v: MapView): seq<Pin> {
    v.pins
  }

  function ShowTraffic(v: MapView): bool {
    v.showTraffic
  }

  function SetShowTraffic(v: MapView, value: bool): (r: Step<MapView>)
    ensures ShowTraffic(r.state) == value
    ensures r.state.(showTraffic := v.showTraffic) == v
    ensures r.raised == if v.listening then ["ShowTraffic"] else []
  {
    Step(v.(showTraffic := value), Raise(v.listening, "ShowTraffic"))
  }

  predicate IsNullOrEmpty(s: Option<string>) {
    s.None? || s.value == ""
  }

  /** The Credentials getter: the phone has no credentials and reports the empty string. */
  function Credentials(v: MapView): (c: Option<string>)
    ensures v.platform == WindowsApp ==> c == v.credentials
    ensures v.platform == WindowsPhoneApp ==> c == Some("")
  {
    match v.platform
    case WindowsApp => v.credentials
    case WindowsPhoneApp => Some("")
  }

  /** The MapServiceToken getter: Windows has no token and reports the empty string. */
  function MapServiceToken(v: MapView): (t: Option<string>)
    ensures v.platform == WindowsPhoneApp ==> t == v.mapServiceToken
    ensures v.platform == WindowsApp ==> t == Some("")
  {
    match v.platform
    case WindowsApp => Some("")
    case WindowsPhoneApp => v.mapServiceToken
  }

  /**
   * The Credentials setter stores only a non-empty value and only on Windows,
   * but always raises the notification.
   */
  function SetCredentials(v: MapView, value: Option<string>): (r: Step<MapView>)
    ensures v.platform == WindowsApp && !IsNullOrEmpty(value) ==>
      Credentials(r.state) == value && r.state.(credentials := v.credentials) == v
    ensures v.platform == WindowsPhoneApp || IsNullOrEmpty(value) ==> r.state == v
    ensures r.raised == if v.listening then ["Credentials"] else []
  {
    var stored := if v.platform == WindowsApp && !IsNullOrEmpty(value) then v.(credentials := value) else v;
    Step(stored, Raise(v.listening, "Credentials"))
  }

  /** The MapServiceToken setter: the phone's mirror image of the Credentials setter. */
  function SetMapServiceToken(v: MapView, value: Option<string>): (r: Step<MapView>)
    ensures v.platform == WindowsPhoneApp && !IsNullOrEmpty(value) ==>
      MapServiceToken(r.state) == value && r.state.(mapServiceToken := v.mapServiceToken) == v
    ensures v.platform == WindowsApp || IsNullOrEmpty(value) ==> r.state == v
    ensures r.raised == if v.listening then ["MapServiceToken"] else []
  {
    var stored := if v.platform == WindowsPhoneApp && !IsNullOrEmpty(value) then v.(mapServiceToken := value) else v;
    Step(stored, Raise(v.listening, "MapServiceToken"))
  }

  /** SetPosition: centre and zoom go to the control; only Windows raises "Center" and "Zoom". */
  function SetPosition(v: MapView, center: Geoposition, zoom: real): (r: Step<MapView>)
    ensures r.state.camera == CenterZoom(center, zoom)
    ensures r.state.(camera := v.camera) == v
    ensures r.raised == if v.listening && v.platform == WindowsApp then ["Center", "Zoom"] else []
  {
    var raised := if v.platform == WindowsApp then Raise(v.listening, "Center") + Raise(v.listening, "Zoom") else [];
    Step(v.(camera := CenterZoom(center, zoom)), raised)
  }

  function SetMapType(v: MapView, value: int): (r: MapView)
    ensures r.display == Some(DisplayFor(v.platform, value))
    ensures r.(display := v.display) == v
  {
    v.(display := Some(DisplayFor(v.platform, value)))
  }

  /** The positions of the registered pins, in registry order. */
  function PinPositions(pins: seq<Pin>): (ps: seq<Geoposition>)
    ensures |ps| == |pins|
    ensures forall i | 0 <= i < |pins| :: ps[i] == pins[i].position
  {
    seq(|pins|, i requires 0 <= i < |pins| => pins[i].position)
  }

  /**
   * SetAutomaticallyZoom: Windows frames the positions of the registered pins
   * and ignores its argument; the phone frames the positions it is given.
   */
  function SetAutomaticallyZoom(v: MapView, basicPositions: seq<Geoposition>): (r: MapView)
    ensures r.(camera := v.camera) == v
    ensures v.platform == WindowsPhoneApp ==> r.camera == Bounds(basicPositions)
    ensures v.platform == WindowsApp ==>
      r.camera.Bounds? && |r.camera.points| == |v.pins| &&
      forall i | 0 <= i < |v.pins| :: r.camera.points[i] == v.pins[i].position
  {
    match v.platform
    case WindowsApp => v.(camera := Bounds(PinPositions(v.pins)))
    case WindowsPhoneApp => v.(camera := Bounds(basicPositions))
  }

  /** On Windows the framing does not depend on the positions passed in. */
  lemma WindowsZoomIgnoresArgument(v: MapView, a: seq<Geoposition>, b: seq<Geoposition>)
    requires v.platform == WindowsApp
    ensures SetAutomaticallyZoom(v, a) == SetAutomaticallyZoom(v, b)
  {
  }

  /** The icon built when a pin is added: a null title becomes the empty string. */
  function NewIcon(p: Pin): (icon: MapIcon)
    ensures p.title.None? ==> icon.title == Some("")
    ensures p.title.Some? ==> icon.title == p.title
    ensures icon.image == p.imageSourceKey && icon.location == p.position
  {
    MapIcon(Some(p.title.GetOr("")), p.imageSourceKey, p.position)
  }

  /**
   * The phone's listener, as written: it compares the raised name with the
   * literals "Title", "PushpinImage" and "position" (lower-case p).
   */
  function OnPinChanged(icon: MapIcon, p: Pin, name: string): MapIcon {
    if name == "Title" then icon.(title := p.title)
    else if name == "PushpinImage" then icon.(image := p.imageSourceKey)
    else if name == "position" then icon.(location := p.position)
    else icon
  }

  /** The listener run over the names one setter raised; the pin is already in its new state. */
  function Deliver(icon: MapIcon, p: Pin, names: seq<string>): (r: MapIcon)
    ensures r.location == icon.location || "position" in names
    ensures "position" in names ==> r.location == p.position
    ensures "Title" in names ==> r.title == p.title
    ensures (forall k | 0 <= k < |names| :: names[k] != "Title") ==> r.title == icon.title
    ensures "PushpinImage" in names ==> r.image == p.imageSourceKey
    ensures (forall k | 0 <= k < |names| :: names[k] != "PushpinImage") ==> r.image == icon.image
    decreases |names|
  {
    if |names| == 0 then icon
    else Deliver(OnPinChanged(icon, p, names[0]), p, names[1..])
  }

  /** Pins registered on the phone have the icon listener attached. */
  function PinsListened(v: MapView): bool {
    v.platform == WindowsPhoneApp
  }

  /** AddPin: append to the registry and, on the phone, add an icon for the pin. */
  function AddPin(v: MapView, p: Pin): (r: MapView)
    ensures GetPushpinList(r) == GetPushpinList(v) + [p]
    ensures v.platform == WindowsPhoneApp ==> r.icons == v.icons + [NewIcon(p)]
    ensures v.platform == WindowsApp ==> r.icons == v.icons
    ensures r.(pins := v.pins, icons := v.icons) == v
    ensures Valid(v) ==> Valid(r)
  {
    var icons := if v.platform == WindowsPhoneApp then v.icons + [NewIcon(p)] else v.icons;
    v.(pins := v.pins + [p], icons := icons)
  }

  /** Several AddPin calls in a row. */
  function AddPins(v: MapView, ps: seq<Pin>): MapView
    decreases |ps|
  {
    if |ps| == 0 then v else AddPins(AddPin(v, ps[0]), ps[1..])
  }

  /** The list GetPushpinList returns holds all pins added, in insertion order, after the old ones. */
  lemma {:induction false} AddPinsAppends(v: MapView, ps: seq<Pin>)
    ensures GetPushpinList(AddPins(v, ps)) == GetPushpinList(v) + ps
    decreases |ps|
  {
    if |ps| > 0 {
      AddPinsAppends(AddPin(v, ps[0]), ps[1..]);
      assert [ps[0]] + ps[1..] == ps;
    }
  }

  /** A fresh view's list is exactly the pins added to it. */
  lemma FreshViewListsAddedPins(platform: Platform, listening: bool, ps: seq<Pin>)
    ensures GetPushpinList(AddPins(NewMapView(platform, listening), ps)) == ps
  {
    AddPinsAppends(NewMapView(platform, listening), ps);
  }

  /**
   * A change made through a registered pin's reference: the pin at `i` changes
   * in place and, on the phone, its icon hears the raised names.
   */
  function UpdatePin(v: MapView, i: nat, c: PinChange): (r: MapView)
    requires i < |v.pins|
    ensures r.pins == v.pins[i := Apply(v.pins[i], c, PinsListened(v)).state]
    ensures r.(pins := v.pins, icons := v.icons) == v
    ensures Valid(v) && v.platform == WindowsPhoneApp ==>
      r.icons == v.icons[i := Deliver(v.icons[i], r.pins[i], Apply(v.pins[i], c, true).raised)]
    ensures v.platform == WindowsApp ==> r.icons == v.icons
    ensures Valid(v) ==> Valid(r)
  {
    var step := Apply(v.pins[i], c, PinsListened(v));
    var icons :=
      if v.platform == WindowsPhoneApp && i < |v.icons|
      then v.icons[i := Deliver(v.icons[i], step.state, step.raised)]
      else v.icons;
    v.(pins := v.pins[i := step.state], icons := icons)
  }

  /** A position update never reaches the phone icon: "Position" is raised, "position" is awaited. */
  lemma PositionUpdateLeavesIcon(v: MapView, i: nat, g: Geoposition)
    requires i < |v.pins|
    ensures UpdatePin(v, i, PositionSet(g)).pins[i].position == g
    ensures UpdatePin(v, i, PositionSet(g)).icons == v.icons
  {
  }

  /** A title update or an image change does reach the phone icon. */
  lemma TitleAndImageReachIcon(v: MapView, i: nat, c: PinChange)
    requires Valid(v) && v.platform == WindowsPhoneApp && i < |v.pins|
    requires c.TitleSet? || c.ImageChanged?
    ensures c.TitleSet? ==> UpdatePin(v, i, c).icons[i].title == c.title
    ensures c.ImageChanged? ==>
      UpdatePin(v, i, c).icons[i].image == UpdatePin(v, i, c).pins[i].imageSourceKey
  {
  }
}
