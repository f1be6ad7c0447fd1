/**
 * The pushpin view model: an immutable record per pin, setters that store a
 * value and raise a notification named after the property, and the cyclic
 * advance of the pin's image key.
 */
module Pushpin {
  import opened Wrappers
  import opened Notifications

  /** The three pushpin images, in declaration order (underlying values 0, 1, 2). */
  datatype PushpinKey = Pushpin1 | Pushpin2 | Pushpin3

  /** The number of names the enum declares. */
  const KeyCount: nat := 3

  /** The enum's underlying integer value. */
  function Ordinal(k: PushpinKey): (n: nat)
    ensures n < KeyCount
  {
    match k
    case Pushpin1 => 0
    case Pushpin2 => 1
    case Pushpin3 => 2
  }

  /** The cast from an in-range integer back to the enum. */
  function FromOrdinal(n: nat): (k: PushpinKey)
    requires n < KeyCount
    ensures Ordinal(k) == n
  {
    if n == 0 then Pushpin1 else if n == 1 then Pushpin2 else Pushpin3
  }

  /** A geographic position; the model never computes with it except in the random walk. */
  datatype Geoposition = Geoposition(latitude: real, longitude: real)

  /** The value of an unassigned position field (the all-zero struct). */
  const DefaultPosition := Geoposition(0.0, 0.0)

  /** The state of one pin. A null title is `None`. */
  datatype Pin = Pin(
    isMyLocation: bool,
    title: Option<string>,
    imageSourceKey: PushpinKey,
    position: Geoposition,
    accuracy: real)

  /** The constructor: only `isMyLocation` is chosen by the caller (default false). */
  function NewPin(isMyLocation: bool): (p: Pin)
    ensures p.isMyLocation == isMyLocation
    ensures p.title == None
    ensures p.imageSourceKey == Pushpin1
    ensures p.position == DefaultPosition
    ensures p.accuracy == 0.0
  {
    Pin(isMyLocation, None, Pushpin1, DefaultPosition, 0.0)
  }

  function SetTitle(p: Pin, value: Option<string>, listening: bool): (r: Step<Pin>)
    ensures r.state.title == value
    ensures r.state.(title := p.title) == p
    ensures r.raised == if listening then ["Title"] else []
  {
    Step(p.(title := value), Raise(listening, "Title"))
  }

  function SetImageSourceKey(p: Pin, value: PushpinKey, listening: bool): (r: Step<Pin>)
    ensures r.state.imageSourceKey == value
    ensures r.state.(imageSourceKey := p.imageSourceKey) == p
    ensures r.raised == if listening then ["ImageSourceKey"] else []
  {
    Step(p.(imageSourceKey := value), Raise(listening, "ImageSourceKey"))
  }

  function SetPosition(p: Pin, value: Geoposition, listening: bool): (r: Step<Pin>)
    ensures r.state.position == value
    ensures r.state.(position := p.position) == p
    ensures r.raised == if listening then ["Position"] else []
  {
    Step(p.(position := value), Raise(listening, "Position"))
  }

  function SetAccuracy(p: Pin, value: real, listening: bool): (r: Step<Pin>)
    ensures r.state.accuracy == value
    ensures r.state.(accuracy := p.accuracy) == p
    ensures r.raised == if listening then ["Accuracy"] else []
  {
    Step(p.(accuracy := value), Raise(listening, "Accuracy"))
  }

  /** The key after `k`: the successor of its underlying value modulo the enum's size. */
  function NextKey(k: PushpinKey): PushpinKey {
    FromOrdinal((Ordinal(k) + 1) % KeyCount)
  }

  /**
   * ChangePushpinImage: advance the key through the ImageSourceKey setter, then
   * raise "PushpinImage" for the derived image property.
   */
  function ChangePushpinImage(p: Pin, listening: bool): (r: Step<Pin>)
    ensures p.imageSourceKey == Pushpin1 ==> r.state.imageSourceKey == Pushpin2
    ensures p.imageSourceKey == Pushpin2 ==> r.state.imageSourceKey == Pushpin3
    ensures p.imageSourceKey == Pushpin3 ==> r.state.imageSourceKey == Pushpin1
    ensures r.state.(imageSourceKey := p.imageSourceKey) == p
    ensures r.raised == if listening then ["ImageSourceKey", "PushpinImage"] else []
  {
    var s := SetImageSourceKey(p, NextKey(p.imageSourceKey), listening);
    Step(s.state, s.raised + Raise(listening, "PushpinImage"))
  }

  /** One call into the pin's public surface that changes it. */
  datatype PinChange =
    | TitleSet(title: Option<string>)
    | ImageSourceKeySet(key: PushpinKey)
    | PositionSet(position: Geoposition)
    | AccuracySet(accuracy: real)
    | ImageChanged

  function Apply(p: Pin, c: PinChange, listening: bool): (r: Step<Pin>)
    ensures r.state.isMyLocation == p.isMyLocation
    ensures !listening ==> r.raised == []
    ensures listening ==> 1 <= |r.raised| <= 2
  {
    match c
    case TitleSet(t) => SetTitle(p, t, listening)
    case ImageSourceKeySet(k) => SetImageSourceKey(p, k, listening)
    case PositionSet(g) => SetPosition(p, g, listening)
    case AccuracySet(a) => SetAccuracy(p, a, listening)
    case ImageChanged => ChangePushpinImage(p, listening)
  }

  /** A sequence of changes, in order, with the concatenation of what each raised. */
  function ApplyAll(p: Pin, cs: seq<PinChange>, listening: bool): (r: Step<Pin>)
    ensures r.state.isMyLocation == p.isMyLocation
    ensures !listening ==> r.raised == []
    ensures listening ==> |cs| <= |r.raised| <= 2 * |cs|
    decreases |cs|
  {
    if |cs| == 0 then Step(p, [])
    else
      var first := Apply(p, cs[0], listening);
      var rest := ApplyAll(first.state, cs[1..], listening);
      Step(rest.state, first.raised + rest.raised)
  }

  /** The pin after `n` image changes. */
  function CycleImage(p: Pin, n: nat): Pin
    decreases n
  {
    if n == 0 then p else ChangePushpinImage(CycleImage(p, n - 1), false).state
  }

  /** After `n` changes the key's value is the original plus `n`, modulo three; nothing else moves. */
  lemma {:induction false} CycleImageOrdinal(p: Pin, n: nat)
    ensures Ordinal(CycleImage(p, n).imageSourceKey) == (Ordinal(p.imageSourceKey) + n) % KeyCount
    ensures CycleImage(p, n).(imageSourceKey := p.imageSourceKey) == p
    decreases n
  {
    if n > 0 {
      CycleImageOrdinal(p, n - 1);
    }
  }

  lemma OrdinalInjective(j: PushpinKey, k: PushpinKey)
    requires Ordinal(j) == Ordinal(k)
    ensures j == k
  {
  }

  /** The image cycle has period three: `n` changes act like `n % 3` changes. */
  lemma {:induction false} CycleImagePeriod(p: Pin, n: nat)
    ensures CycleImage(p, n) == CycleImage(p, n % KeyCount)
  {
    CycleImageOrdinal(p, n);
    CycleImageOrdinal(p, n % KeyCount);
    OrdinalInjective(CycleImage(p, n).imageSourceKey, CycleImage(p, n % KeyCount).imageSourceKey);
  }
}
