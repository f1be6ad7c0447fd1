/**
 * The main page's handlers over the map view: the my-location upsert, the
 * "change my pin" action, the 20-pin random batch, the traffic toggle, the
 * map-type buttons and the automatic zoom, plus the invariants any sequence
 * of them keeps.
 */
module MainPage {
  import opened Wrappers
  import opened Notifications
  import opened Pushpin
  import opened MapViews

  /** The page: its map view and the positions it has collected for framing. */
  datatype Page = Page(view: MapView, basicPositions: seq<Geoposition>)

  const MyLocationTitle: string := "I am here!"
  const MyLocationZoom: real := 15.0
  const BatchSize: nat := 20

  function NewPage(platform: Platform, viewListening: bool): (page: Page)
    ensures page.view == NewMapView(platform, viewListening)
    ensures page.basicPositions == []
  {
    Page(NewMapView(platform, viewListening), [])
  }

  predicate NoMyLocation(pins: seq<Pin>) {
    forall j | 0 <= j < |pins| :: !pins[j].isMyLocation
  }

  /** `i` is the index of the first pin with `isMyLocation`. */
  predicate IsFirstMyLocation(pins: seq<Pin>, i: int) {
    && 0 <= i < |pins|
    && pins[i].isMyLocation
    && forall j | 0 <= j < i :: !pins[j].isMyLocation
  }

  /** `Where(pin => pin.IsMyLocation).FirstOrDefault()`, as an index. */
  function FindMyLocation(pins: seq<Pin>): (r: Option<nat>)
    ensures r.None? <==> NoMyLocation(pins)
    ensures r.Some? ==> IsFirstMyLocation(pins, r.value)
    decreases |pins|
  {
    if |pins| == 0 then None
    else if pins[0].isMyLocation then Some(0)
    else
      match FindMyLocation(pins[1..])
      case None => None
      case Some(k) => Some(k + 1)
  }

  /** The pin the click creates: built and filled in before anything listens to it. */
  function NewMyLocationPin(position: Geoposition, accuracy: real): (p: Pin)
    ensures p == Pin(true, Some(MyLocationTitle), Pushpin1, position, accuracy)
  {
    var created := NewPin(true);
    var titled := SetTitle(created, Some(MyLocationTitle), false).state;
    var placed := Pushpin.SetPosition(titled, position, false).state;
    SetAccuracy(placed, accuracy, false).state
  }

  /**
   * The my-location click, given the position and accuracy the geolocator
   * reported: record the position, centre the map on it, then create the
   * my-location pin or update the first one.
   */
  function MyLocationClicked(page: Page, position: Geoposition, accuracy: real): (r: Page)
    ensures r.basicPositions == page.basicPositions + [position]
    ensures r.view.camera == CenterZoom(position, MyLocationZoom)
    ensures r.view.(pins := page.view.pins, icons := page.view.icons, camera := page.view.camera) == page.view
    ensures NoMyLocation(page.view.pins) ==>
      && |r.view.pins| == |page.view.pins| + 1
      && r.view.pins[..|page.view.pins|] == page.view.pins
      && r.view.pins[|page.view.pins|] == Pin(true, Some(MyLocationTitle), Pushpin1, position, accuracy)
    ensures forall i | IsFirstMyLocation(page.view.pins, i) ::
      && |r.view.pins| == |page.view.pins|
      && r.view.pins[i] == page.view.pins[i].(position := position, accuracy := accuracy)
      && forall j | 0 <= j < |r.view.pins| && j != i :: r.view.pins[j] == page.view.pins[j]
    ensures Valid(page.view) ==> Valid(r.view)
  {
    var centred := MapViews.SetPosition(page.view, position, MyLocationZoom).state;
    var basic := page.basicPositions + [position];
    match FindMyLocation(centred.pins)
    case None =>
      Page(AddPin(centred, NewMyLocationPin(position, accuracy)), basic)
    case Some(i) =>
      var moved := UpdatePin(centred, i, PositionSet(position));
      Page(UpdatePin(moved, i, AccuracySet(accuracy)), basic)
  }

  /** "Change my pin": advance the first my-location pin's image, or do nothing. */
  function ChangeMyPushpin(page: Page): (r: Page)
    ensures NoMyLocation(page.view.pins) ==> r == page
    ensures forall i | IsFirstMyLocation(page.view.pins, i) ::
      && |r.view.pins| == |page.view.pins|
      && r.view.pins[i] == ChangePushpinImage(page.view.pins[i], false).state
      && forall j | 0 <= j < |r.view.pins| && j != i :: r.view.pins[j] == page.view.pins[j]
    ensures r.basicPositions == page.basicPositions
    ensures r.view.(pins := page.view.pins, icons := page.view.icons) == page.view
    ensures Valid(page.view) ==> Valid(r.view)
  {
    match FindMyLocation(page.view.pins)
    case None => page
    case Some(i) => page.(view := UpdatePin(page.view, i, ImageChanged))
  }

  function ToggleTraffic(page: Page): (r: Page)
    ensures ShowTraffic(r.view) == !ShowTraffic(page.view)
    ensures r.view.(showTraffic := page.view.showTraffic) == page.view
    ensures r.basicPositions == page.basicPositions
  {
    page.(view := SetShowTraffic(page.view, !ShowTraffic(page.view)).state)
  }

  /** Toggling traffic twice restores the page. */
  lemma ToggleTrafficTwice(page: Page)
    ensures ToggleTraffic(ToggleTraffic(page)) == page
  {
  }

  /** The Road, Birdseye and Aerial buttons. */
  function MapTypeClicked(page: Page, t: MapTypeEnum): (r: Page)
    ensures r.view.display == Some(DisplayFor(page.view.platform, EnumValue(t)))
    ensures r.view.(display := page.view.display) == page.view
    ensures r.basicPositions == page.basicPositions
  {
    page.(view := SetMapType(page.view, EnumValue(t)))
  }

  /** The zoom button hands the collected positions to SetAutomaticallyZoom. */
  function ZoomChecked(page: Page): (r: Page)
    ensures r.view.(camera := page.view.camera) == page.view
    ensures page.view.platform == WindowsPhoneApp ==> r.view.camera == Bounds(page.basicPositions)
    ensures r.basicPositions == page.basicPositions
  {
    page.(view := SetAutomaticallyZoom(page.view, page.basicPositions))
  }

  /**
   * Sign normalisation of `random.Next(-1, 1)`, whose result is -1 or 0:
   * zero becomes one, so the sign is never zero.
   */
  function NormaliseSign(raw: int): (s: int)
    ensures s != 0
    ensures raw != 0 ==> s == raw
    ensures -1 <= raw < 1 ==> (s == -1 <==> raw == -1) && (s == 1 <==> raw == 0)
  {
    if raw == 0 then 1 else raw
  }

  /**
   * One iteration's random draws: a raw sign and a `NextDouble()` fraction for
   * latitude, then the same for longitude.
   */
  datatype Draw = Draw(latitudeSign: int, latitudeFraction: real, longitudeSign: int, longitudeFraction: real)

  /** One step of the walk: each coordinate moves by fraction / 50 in the normalised direction. */
  function Move(from: Geoposition, d: Draw): Geoposition {
    Geoposition(
      from.latitude + (d.latitudeFraction / 50.0) * (NormaliseSign(d.latitudeSign) as real),
      from.longitude + (d.longitudeFraction / 50.0) * (NormaliseSign(d.longitudeSign) as real))
  }

  /** The positions the batch visits, each one step from the previous. */
  function Walk(from: Geoposition, draws: seq<Draw>): (w: seq<Geoposition>)
    ensures |w| == |draws|
    ensures |draws| > 0 ==> w[0] == Move(from, draws[0])
    ensures forall k | 0 < k < |w| :: w[k] == Move(w[k - 1], draws[k])
    decreases |draws|
  {
    if |draws| == 0 then []
    else
      var next := Move(from, draws[0]);
      [next] + Walk(next, draws[1..])
  }

  /** A random pin: default-constructed, then placed. */
  function RandomPin(g: Geoposition): (p: Pin)
    ensures p == Pin(false, None, Pushpin1, g, 0.0)
  {
    Pushpin.SetPosition(NewPin(false), g, false).state
  }

  function RandomPins(walk: seq<Geoposition>): (ps: seq<Pin>)
    ensures |ps| == |walk|
    ensures forall k | 0 <= k < |walk| :: ps[k] == RandomPin(walk[k])
  {
    seq(|walk|, k requires 0 <= k < |walk| => RandomPin(walk[k]))
  }

  /** The batch loop over the given draws: each iteration adds a pin and records its position. */
  function AddRandomPins(page: Page, from: Geoposition, draws: seq<Draw>): (r: Page)
    ensures r.view.pins == page.view.pins + RandomPins(Walk(from, draws))
    ensures r.basicPositions == page.basicPositions + Walk(from, draws)
    ensures r.view.(pins := page.view.pins, icons := page.view.icons) == page.view
    ensures Valid(page.view) ==> Valid(r.view)
    decreases |draws|
  {
    if |draws| == 0 then page
    else
      var g := Move(from, draws[0]);
      var next := Page(AddPin(page.view, RandomPin(g)), page.basicPositions + [g]);
      var r := AddRandomPins(next, g, draws[1..]);
      assert Walk(from, draws) == [g] + Walk(g, draws[1..]);
      RandomPinsCons(g, Walk(g, draws[1..]));
      AppendCons(page.view.pins, RandomPin(g), RandomPins(Walk(g, draws[1..])));
      AppendCons(page.basicPositions, g, Walk(g, draws[1..]));
      r
  }

  lemma RandomPinsCons(g: Geoposition, walk: seq<Geoposition>)
    ensures RandomPins([g] + walk) == [RandomPin(g)] + RandomPins(walk)
  {
  }

  lemma AppendCons<T>(s: seq<T>, x: T, t: seq<T>)
    ensures (s + [x]) + t == s + ([x] + t)
  {
  }

  /**
   * The random-pin button, given the geolocator's position and the draws of
   * its 20 iterations.
   */
  function RandomBatch(page: Page, origin: Geoposition, draws: seq<Draw>): (r: Page)
    requires |draws| == BatchSize
    ensures |r.view.pins| == |page.view.pins| + BatchSize
    ensures r.view.pins[..|page.view.pins|] == page.view.pins
    ensures forall k | |page.view.pins| <= k < |r.view.pins| :: !r.view.pins[k].isMyLocation
    ensures |r.basicPositions| == |page.basicPositions| + BatchSize
    ensures r.basicPositions[..|page.basicPositions|] == page.basicPositions
    ensures forall k | |page.view.pins| <= k < |r.view.pins| ::
      r.view.pins[k].position == r.basicPositions[k - |page.view.pins| + |page.basicPositions|]
    ensures r.view.(pins := page.view.pins, icons := page.view.icons) == page.view
    ensures Valid(page.view) ==> Valid(r.view)
  {
    AddRandomPins(page, origin, draws)
  }

  /** The page's buttons, with the outside world's answers as arguments. */
  datatype Action =
    | LocateMe(position: Geoposition, accuracy: real)
    | DropRandomPins(origin: Geoposition, draws: seq<Draw>)
    | ChangeMine
    | FlipTraffic
    | ChooseMapType(mapType: MapTypeEnum)
    | ZoomToFit

  predicate WellFormed(a: Action) {
    a.DropRandomPins? ==> |a.draws| == BatchSize
  }

  function Perform(page: Page, a: Action): Page
    requires WellFormed(a)
  {
    match a
    case LocateMe(g, acc) => MyLocationClicked(page, g, acc)
    case DropRandomPins(origin, draws) => RandomBatch(page, origin, draws)
    case ChangeMine => ChangeMyPushpin(page)
    case FlipTraffic => ToggleTraffic(page)
    case ChooseMapType(t) => MapTypeClicked(page, t)
    case ZoomToFit => ZoomChecked(page)
  }

  function Run(page: Page, actions: seq<Action>): Page
    requires forall k | 0 <= k < |actions| :: WellFormed(actions[k])
    decreases |actions|
  {
    if |actions| == 0 then page else Run(Perform(page, actions[0]), actions[1..])
  }

  predicate AtMostOneMyLocation(pins: seq<Pin>) {
    forall i, j | 0 <= i < |pins| && 0 <= j < |pins| && pins[i].isMyLocation && pins[j].isMyLocation :: i == j
  }

  /**
   * `after` is `before` with pins only appended: every old index keeps its
   * my-location flag and title, and an old pin that is not the my-location
   * pin is left exactly as it was (only the my-location pin is ever edited).
   */
  predicate AppendOnly(before: seq<Pin>, after: seq<Pin>) {
    && |before| <= |after|
    && forall i | 0 <= i < |before| ::
      && after[i].isMyLocation == before[i].isMyLocation
      && after[i].title == before[i].title
      && (!before[i].isMyLocation ==> after[i] == before[i])
  }

  /** Keeping the old pins as a prefix is append-only. */
  lemma PrefixIsAppendOnly(before: seq<Pin>, after: seq<Pin>)
    requires |before| <= |after| && after[..|before|] == before
    ensures AppendOnly(before, after)
  {
    assert forall j | 0 <= j < |before| :: after[j] == after[..|before|][j];
  }

  /** Editing only the first my-location pin, keeping its flag and title, is append-only. */
  lemma EditFirstIsAppendOnly(before: seq<Pin>, after: seq<Pin>, i: int)
    requires IsFirstMyLocation(before, i)
    requires AtMostOneMyLocation(before)
    requires |after| == |before|
    requires after[i].isMyLocation && after[i].title == before[i].title
    requires forall j | 0 <= j < |after| && j != i :: after[j] == before[j]
    ensures AppendOnly(before, after)
    ensures AtMostOneMyLocation(after)
  {
  }

  lemma LocateMeKeepsInvariants(page: Page, g: Geoposition, acc: real)
    requires AtMostOneMyLocation(page.view.pins)
    ensures AtMostOneMyLocation(MyLocationClicked(page, g, acc).view.pins)
    ensures AppendOnly(page.view.pins, MyLocationClicked(page, g, acc).view.pins)
  {
    var pins := page.view.pins;
    var after := MyLocationClicked(page, g, acc).view.pins;
    if NoMyLocation(pins) {
      PrefixIsAppendOnly(pins, after);
      assert forall j | 0 <= j < |pins| :: after[j] == pins[j] by {
        assert forall j | 0 <= j < |pins| :: after[j] == after[..|pins|][j];
      }
    } else {
      var i := FindMyLocation(pins).value;
      EditFirstIsAppendOnly(pins, after, i);
    }
  }

  lemma ChangeMineKeepsInvariants(page: Page)
    requires AtMostOneMyLocation(page.view.pins)
    ensures AtMostOneMyLocation(ChangeMyPushpin(page).view.pins)
    ensures AppendOnly(page.view.pins, ChangeMyPushpin(page).view.pins)
  {
    var pins := page.view.pins;
    if !NoMyLocation(pins) {
      var i := FindMyLocation(pins).value;
      EditFirstIsAppendOnly(pins, ChangeMyPushpin(page).view.pins, i);
    }
  }

  lemma BatchKeepsInvariants(page: Page, origin: Geoposition, draws: seq<Draw>)
    requires |draws| == BatchSize
    requires AtMostOneMyLocation(page.view.pins)
    ensures AtMostOneMyLocation(RandomBatch(page, origin, draws).view.pins)
    ensures AppendOnly(page.view.pins, RandomBatch(page, origin, draws).view.pins)
  {
    var pins := page.view.pins;
    var after := RandomBatch(page, origin, draws).view.pins;
    PrefixIsAppendOnly(pins, after);
    assert forall j | 0 <= j < |pins| :: after[j] == pins[j] by {
      assert forall j | 0 <= j < |pins| :: after[j] == after[..|pins|][j];
    }
  }

  lemma PerformKeepsInvariants(page: Page, a: Action)
    requires WellFormed(a)
    requires AtMostOneMyLocation(page.view.pins)
    ensures AtMostOneMyLocation(Perform(page, a).view.pins)
    ensures AppendOnly(page.view.pins, Perform(page, a).view.pins)
    ensures Valid(page.view) ==> Valid(Perform(page, a).view)
  {
    match a
    case LocateMe(g, acc) => LocateMeKeepsInvariants(page, g, acc);
    case DropRandomPins(origin, draws) => BatchKeepsInvariants(page, origin, draws);
    case ChangeMine => ChangeMineKeepsInvariants(page);
    case FlipTraffic =>
    case ChooseMapType(t) =>
    case ZoomToFit =>
  }

  /**
   * From any state with at most one my-location pin, any sequence of button
   * presses keeps at most one, only appends pins (old pins other than the
   * my-location pin stay exactly as they were), and keeps one phone icon per pin.
   */
  lemma {:induction false} RunKeepsInvariants(page: Page, actions: seq<Action>)
    requires forall k | 0 <= k < |actions| :: WellFormed(actions[k])
    requires AtMostOneMyLocation(page.view.pins)
    ensures AtMostOneMyLocation(Run(page, actions).view.pins)
    ensures AppendOnly(page.view.pins, Run(page, actions).view.pins)
    ensures Valid(page.view) ==> Valid(Run(page, actions).view)
    decreases |actions|
  {
    if |actions| > 0 {
      var next := Perform(page, actions[0]);
      PerformKeepsInvariants(page, actions[0]);
      RunKeepsInvariants(next, actions[1..]);
    }
  }

  /** Starting from a fresh page there is never more than one my-location pin. */
  lemma FreshPageHasAtMostOneMyLocation(platform: Platform, viewListening: bool, actions: seq<Action>)
    requires forall k | 0 <= k < |actions| :: WellFormed(actions[k])
    ensures AtMostOneMyLocation(Run(NewPage(platform, viewListening), actions).view.pins)
    ensures Valid(Run(NewPage(platform, viewListening), actions).view)
  {
    RunKeepsInvariants(NewPage(platform, viewListening), actions);
  }

  /**
   * On the phone, once the my-location pin exists, a click moves the pin but
   * its icon stays where it was: the listener waits for "position" while the
   * setter raises "Position".
   */
  lemma PhoneMyLocationIconStaysPut(page: Page, position: Geoposition, accuracy: real, i: nat)
    requires page.view.platform == WindowsPhoneApp && Valid(page.view)
    requires IsFirstMyLocation(page.view.pins, i)
    ensures MyLocationClicked(page, position, accuracy).view.pins[i].position == position
    ensures MyLocationClicked(page, position, accuracy).view.icons == page.view.icons
  {
  }

  /** On the phone, "change my pin" does reach the icon's image. */
  lemma PhoneChangeMyPushpinUpdatesIcon(page: Page, i: nat)
    requires page.view.platform == WindowsPhoneApp && Valid(page.view)
    requires IsFirstMyLocation(page.view.pins, i)
    ensures ChangeMyPushpin(page).view.icons[i].image == ChangeMyPushpin(page).view.pins[i].imageSourceKey
  {
  }
}
