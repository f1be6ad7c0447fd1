# Pushpin bookkeeping of MapsUniversalApps, modelled in Dafny

MapsUniversalApps is a demonstration map application with a Windows Store variant and a Windows Phone variant. Apart from calls into the platform map and location services, it keeps a small amount of state of its own:

- **Pushpin view model** (`PushpinViewModel`). Each pin is a record: a my-location flag, a title, an image key, a position and an accuracy. Its setters store a value and raise a property-change notification. `ChangePushpinImage` moves the image key cyclically through three values.
- **Map view** (`MapView`). It holds:
  - the pin registry (`AddPin`, `GetPushpinList`);
  - the map-type switch for each platform;
  - the guarded `Credentials` and `MapServiceToken` setters;
  - the traffic flag;
  - the camera requests handed to the control.

  On the phone it also builds one map icon per pin. A listener updates that icon by matching the raised property name against literal strings.
- **Main page** (`MainPage`). It has these handlers:
  - the my-location button, which creates or updates the single my-location pin;
  - the "change my pin" button;
  - the random batch of 20 pins, including the sign normalisation of `random.Next(-1, 1)`;
  - the traffic toggle, the map-type buttons and the automatic zoom.

The model is purely functional:

- A pin is an immutable `Pushpin.Pin`.
- A setter returns a `Notifications.Step`: the new state plus the names it raised, in order.
- Whether anything handles a pin's or a view's `PropertyChanged` event is an explicit `listening` flag. With no handler, nothing is raised.
- Pins are values, so changing a registered pin through the reference in the list is modelled as `MapViews.UpdatePin(view, index, change)`. That function replaces the pin in place. On the phone it also feeds the raised names to the pin's icon listener.
- Positions are `Geoposition(latitude, longitude)` over `real`. Accuracy is a `real`.
- The outside world becomes arguments: the geolocator's position and accuracy, and the random draws of each batch iteration.

The icon listener is modelled as written. It waits for `"position"` (MapView.cs:241), but the pin's setter raises `"Position"` (PushpinViewModel.cs:99). As a result, on the phone a position update never moves the icon. `MapViews.PositionUpdateLeavesIcon` and `MainPage.PhoneMyLocationIconStaysPut` prove this, while `MapViews.TitleAndImageReachIcon` shows that title and image updates do reach the icon.

Files: `wrappers.dfy` (Option), `notifications.dfy` (Step, Raise), `pushpin.dfy`, `map_view.dfy`, `main_page.dfy`.

## Model

| member | source | states |
|---|---|---|
| Pushpin.NewPin | MapsUniversalApps/MapsUniversalApps.Shared/ViewModels/PushpinViewModel.cs:32-47 | a new pin has image key Pushpin1, accuracy 0, a null title, the zero position, and the my-location flag it was constructed with |
| Pushpin.Ordinal | MapsUniversalApps/MapsUniversalApps.Shared/ViewModels/PushpinViewModel.cs:25-30 | every image key's underlying value lies below the number of declared keys (3) |
| Pushpin.FromOrdinal | MapsUniversalApps/MapsUniversalApps.Shared/ViewModels/PushpinViewModel.cs:152 | the cast of an in-range value back to the enum yields the key with that value |
| Pushpin.SetTitle | MapsUniversalApps/MapsUniversalApps.Shared/ViewModels/PushpinViewModel.cs:68-72 | the title is stored verbatim, every other field is unchanged, and exactly one "Title" notification is raised when someone listens (none otherwise) |
| Pushpin.SetImageSourceKey | MapsUniversalApps/MapsUniversalApps.Shared/ViewModels/PushpinViewModel.cs:82-86 | the key is stored verbatim, nothing else changes, and exactly one "ImageSourceKey" notification is raised when someone listens |
| Pushpin.SetPosition | MapsUniversalApps/MapsUniversalApps.Shared/ViewModels/PushpinViewModel.cs:96-100 | the position is stored verbatim, nothing else changes, and exactly one notification named "Position" (capital P) is raised when someone listens |
| Pushpin.SetAccuracy | MapsUniversalApps/MapsUniversalApps.Shared/ViewModels/PushpinViewModel.cs:110-114 | the accuracy is stored verbatim, nothing else changes, and exactly one "Accuracy" notification is raised when someone listens |
| Pushpin.ChangePushpinImage | MapsUniversalApps/MapsUniversalApps.Shared/ViewModels/PushpinViewModel.cs:145-154 | the key goes Pushpin1 to Pushpin2 to Pushpin3 to Pushpin1. Only the key changes. The notifications are "ImageSourceKey" then "PushpinImage", in that order, and none when nobody listens |
| Pushpin.Apply | MapsUniversalApps/MapsUniversalApps.Shared/ViewModels/PushpinViewModel.cs:53-59 | IsMyLocation has no setter, so no single change alters it. Every change raises one or two names when listened to and none otherwise |
| Pushpin.ApplyAll | MapsUniversalApps/MapsUniversalApps.Shared/ViewModels/PushpinViewModel.cs:157-164 | across any sequence of changes the my-location flag is preserved. With no subscriber the sequence raises nothing; with one it raises between one and two names per change |
| Pushpin.CycleImageOrdinal | MapsUniversalApps/MapsUniversalApps.Shared/ViewModels/PushpinViewModel.cs:149-152 | after n image changes the key's value is (original + n) mod 3 and every other field is the original |
| Pushpin.CycleImagePeriod | MapsUniversalApps/MapsUniversalApps.Shared/ViewModels/PushpinViewModel.cs:145-152 | the image cycle has period three: n changes equal n mod 3 changes, so three changes restore the pin |
| MapViews.DisplayFor | MapsUniversalApps/MapsUniversalApps.Shared/MapView.cs:160-191 | total on every integer value. Aerial gives Aerial on both platforms. Birdseye gives Birdseye on Windows and AerialWithRoads on the phone. Road or any other value gives Road on Windows and Terrain on the phone. The Windows control type is used exactly on Windows |
| MapViews.DisplayForDistinguishesNamedTypes | MapsUniversalApps/MapsUniversalApps.Shared/MapView.cs:163-189 | the three named map types give three different displays on each platform |
| MapViews.SetMapType | MapsUniversalApps/MapsUniversalApps.Shared/MapView.cs:160-191 | the control's display becomes the platform's mapping of the value; nothing else in the view changes |
| MapViews.NewMapView | MapsUniversalApps/MapsUniversalApps.Shared/MapView.cs:59-70 | a new view's pin list is empty and the icons agree with it |
| MapViews.SetShowTraffic | MapsUniversalApps/MapsUniversalApps.Shared/MapView.cs:76-95 | the getter returns the stored value afterwards. Nothing else changes. A "ShowTraffic" notification is raised when the view is listened to |
| MapViews.Credentials | MapsUniversalApps/MapsUniversalApps.Shared/MapView.cs:100-107 | on Windows the getter reads the control's stored credentials; on the phone it always returns the empty string |
| MapViews.MapServiceToken | MapsUniversalApps/MapsUniversalApps.Shared/MapView.cs:123-130 | on the phone the getter reads the control's stored token; on Windows it always returns the empty string |
| MapViews.SetCredentials | MapsUniversalApps/MapsUniversalApps.Shared/MapView.cs:108-118 | on Windows a non-empty value is stored and read back. A null or empty value, or any value on the phone, leaves the view unchanged. "Credentials" is raised in every case when listened to |
| MapViews.SetMapServiceToken | MapsUniversalApps/MapsUniversalApps.Shared/MapView.cs:131-141 | on the phone a non-empty token is stored and read back. A null or empty token, or any token on Windows, leaves the view unchanged. "MapServiceToken" is raised in every case when listened to |
| MapViews.SetPosition | MapsUniversalApps/MapsUniversalApps.Shared/MapView.cs:148-158 | the camera is centred at the point with the zoom. Only Windows raises "Center" then "Zoom" |
| MapViews.SetAutomaticallyZoom | MapsUniversalApps/MapsUniversalApps.Shared/MapView.cs:193-208 | Windows frames exactly the registered pins' positions, in registry order. The phone frames the positions passed in. Nothing else changes |
| MapViews.WindowsZoomIgnoresArgument | MapsUniversalApps/MapsUniversalApps.Shared/MapView.cs:195-202 | on Windows the result does not depend on the positions argument |
| MapViews.NewIcon | MapsUniversalApps/MapsUniversalApps.Shared/MapView.cs:223-227 | a new phone icon's title is the empty string for a null pin title and the pin's title otherwise. Its image and location are the pin's |
| MapViews.Deliver | MapsUniversalApps/MapsUniversalApps.Shared/MapView.cs:231-245 | the listener sets the icon's location to the pin's position if "position" was raised and leaves it alone otherwise. It sets the icon title from the pin if "Title" was raised and leaves it alone otherwise; the image behaves the same way for "PushpinImage" |
| MapViews.AddPin | MapsUniversalApps/MapsUniversalApps.Shared/MapView.cs:210-248 | the pin list gains exactly the new pin at its end, with earlier pins unchanged and in order. On the phone exactly one icon for it is appended; on Windows the icon list is unchanged. Nothing else changes |
| MapViews.AddPinsAppends | MapsUniversalApps/MapsUniversalApps.Shared/MapView.cs:210-212 | after adding a sequence of pins, the list is the old list followed by that sequence, in order |
| MapViews.FreshViewListsAddedPins | MapsUniversalApps/MapsUniversalApps.Shared/MapView.cs:250-253 | GetPushpinList of a fresh view is exactly the pins added to it, in insertion order |
| MapViews.UpdatePin | MapsUniversalApps/MapsUniversalApps.Shared/MapView.cs:231-245 | changing a registered pin replaces only that pin. On the phone only that pin's icon hears the raised names. On Windows no icon changes |
| MapViews.PositionUpdateLeavesIcon | MapsUniversalApps/MapsUniversalApps.Shared/MapView.cs:241-243 | a position update moves the pin but leaves every icon as it was, because "position" never matches "Position" |
| MapViews.TitleAndImageReachIcon | MapsUniversalApps/MapsUniversalApps.Shared/MapView.cs:233-240 | on the phone a title update sets the icon's title, and an image change makes the icon show the pin's new key |
| MainPage.NewPage | MapsUniversalApps/MapsUniversalApps.Shared/MainPage.xaml.cs:34-38 | a new page has a fresh map view and no collected positions |
| MainPage.FindMyLocation | MapsUniversalApps/MapsUniversalApps.Shared/MainPage.xaml.cs:54 | returns nothing exactly when no pin is a my-location pin. Otherwise it returns the index of the first my-location pin |
| MainPage.NewMyLocationPin | MapsUniversalApps/MapsUniversalApps.Shared/MainPage.xaml.cs:57-60 | the created pin is a my-location pin titled "I am here!" with image key Pushpin1 and the given position and accuracy |
| MainPage.MyLocationClicked | MapsUniversalApps/MapsUniversalApps.Shared/MainPage.xaml.cs:40-70 | the position is always appended to the collected positions and the map is centred on it at zoom 15. Without a my-location pin, exactly one new my-location pin is appended. Otherwise only the first such pin's position and accuracy change; the length and every other pin stay the same |
| MainPage.ChangeMyPushpin | MapsUniversalApps/MapsUniversalApps.Shared/MainPage.xaml.cs:163-172 | with no my-location pin the page is unchanged. Otherwise only the first my-location pin's image key advances |
| MainPage.ToggleTraffic | MapsUniversalApps/MapsUniversalApps.Shared/MainPage.xaml.cs:118-121 | the traffic flag is negated and nothing else changes |
| MainPage.ToggleTrafficTwice | MapsUniversalApps/MapsUniversalApps.Shared/MainPage.xaml.cs:120 | toggling twice restores the page |
| MainPage.MapTypeClicked | MapsUniversalApps/MapsUniversalApps.Shared/MainPage.xaml.cs:103-116 | the Road, Birdseye and Aerial buttons set the display to the platform's mapping of that type and change nothing else |
| MainPage.ZoomChecked | MapsUniversalApps/MapsUniversalApps.Shared/MainPage.xaml.cs:123-126 | the zoom button frames the collected positions on the phone and changes nothing but the camera |
| MainPage.NormaliseSign | MapsUniversalApps/MapsUniversalApps.Shared/MainPage.xaml.cs:144-149 | the sign is never 0. For a draw of Next(-1, 1), -1 stays -1 and 0 becomes 1 |
| MainPage.Walk | MapsUniversalApps/MapsUniversalApps.Shared/MainPage.xaml.cs:146-153 | the walk has one position per draw. Each position is one normalised step from the previous one, starting from the origin |
| MainPage.RandomPin | MapsUniversalApps/MapsUniversalApps.Shared/MainPage.xaml.cs:142-155 | a random pin is a default-constructed, untitled, non-my-location pin placed at the given position |
| MainPage.AddRandomPins | MapsUniversalApps/MapsUniversalApps.Shared/MainPage.xaml.cs:140-160 | the pins gain one random pin per walk position, in order. The collected positions gain the walk itself, in order. Nothing else in the view changes |
| MainPage.RandomBatch | MapsUniversalApps/MapsUniversalApps.Shared/MainPage.xaml.cs:128-161 | the batch appends exactly 20 pins, none of them my-location pins, and exactly 20 collected positions. The k-th new pin sits at the k-th new position. Earlier pins and positions are untouched |
| MainPage.PerformKeepsInvariants | MapsUniversalApps/MapsUniversalApps.Shared/MainPage.xaml.cs:40-172 | every button keeps at most one my-location pin and only appends pins: each old index keeps its my-location flag and title, and every old pin other than the my-location pin is left exactly as it was. On the phone there stays one icon per pin, on Windows none |
| MainPage.RunKeepsInvariants | MapsUniversalApps/MapsUniversalApps.Shared/MainPage.xaml.cs:54-69 | any sequence of button presses keeps at most one my-location pin, only appends pins (old flags and titles kept, old non-my-location pins unchanged) and keeps one phone icon per pin |
| MainPage.FreshPageHasAtMostOneMyLocation | MapsUniversalApps/MapsUniversalApps.Shared/MainPage.xaml.cs:54-63 | from a fresh page, any sequence of clicks and batches leaves at most one my-location pin |
| MainPage.PhoneMyLocationIconStaysPut | MapsUniversalApps/MapsUniversalApps.Shared/MainPage.xaml.cs:65-69 | on the phone, once the my-location pin exists, a click moves the pin but leaves every icon unchanged |
| MainPage.PhoneChangeMyPushpinUpdatesIcon | MapsUniversalApps/MapsUniversalApps.Shared/MainPage.xaml.cs:163-172 | on the phone, "change my pin" makes the icon show the pin's new image key |

## Left out

- Geolocation (`Geolocator`) is not modelled. Its reported position and accuracy are arguments of `MainPage.MyLocationClicked`, and the batch origin is an argument of `MainPage.RandomBatch`.
- Reverse geocoding (`MapLocationFinder`, `MessageDialog`, the address formatting) is not modelled. It is an external asynchronous service with a dialog.
- The `PushpinImage` getters are not modelled: they look up an application resource and build a URI. An icon's image is modelled as the key it was drawn from.
- The platform controls' rendering is not modelled. This covers `SetView`, `TrySetViewBoundsAsync`, `GeoboundingBox.TryCompute`, `LocationRect`, `MapLayer`, `MapElements` and the icon anchor point. Only the logical request handed to them is kept (`MapViews.Camera`, `MapViews.Display`). What the controls do with an empty framing list is not modelled.
- Doubles are modelled as exact reals, so rounding is not modelled.
- Randomness is an argument. Each iteration's `Next(-1, 1)` signs and `NextDouble()` fractions are given as a `MainPage.Draw`.
- `async void` scheduling and XAML wiring are not modelled. Each handler runs to completion, one after another.
- Windows pushpin data binding is not modelled. On Windows the only handler of a pin's notifications would be a binding in the XAML pushpin template, which is not part of this model. Windows pins are therefore treated as having no subscriber.
- The initial credentials and token are not modelled: the Windows control's initial `Credentials` and the phone control's initial `MapServiceToken` are taken to be null.
- Pushpin.Apply: states only the number of raised names (one or two), not the names themselves. The exact names are in the contract of each setter and of `Pushpin.ChangePushpinImage`.
- Pushpin.ApplyAll: bounds the number of raised names per change instead of listing them.
- MainPage.ZoomChecked: states the framed positions only for the phone. What Windows frames is stated by `MapViews.SetAutomaticallyZoom`.
- Pushpin.ChangePushpinImage: the image key is a closed three-valued type. A C# enum variable can hold any integer through a cast, and for such a value the source's `(n + 1) % 3` (truncating remainder, unchecked addition) could leave or stay out of the range. The application only ever stores Pushpin1 (the constructor) and values produced by the cycle itself, so no out-of-range key arises, and the model does not represent one.
- Geoposition: has no altitude. The application's object initialisers set only latitude and longitude, so altitude is always 0 and never read.
