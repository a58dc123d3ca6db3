# OrientAR navigation core in Dafny

OrientAR is an Android campus-navigation app with three parts:

- A geospatial AR screen and its 2D overlay (`MainActivity`, `OverlayView`). They show the distance to a target and a turn arrow.
- An AR arrow screen (`ArNavigationActivity`). It reconciles location fixes with compass readings through `CompassHelper`.
- A treasure hunt (`TreasureHuntActivity`) and a campus tour (`CampusTourActivity`). The tour picks a route over the fixed building table in `Place.kt`.

This project models the rules inside those screens:

- The turn-delta normalisation loops.
- The bearing wrap and the metre scaling.
- The two-field arrow reconciler.
- The compass post-processing: the buffer overwrite, the display-rotation compensation, `mod 360` and rounding.
- The treasure proximity state machine.
- The overlay's label rules.
- The campus tour's mode flag, its spinner lists, its place lookup and its route URIs.

Each piece is written in the form the Kotlin code takes:

- `normalizeDelta` is a method with two `while` loops. It is proved against the function `Geospatial.Normalized`.
- Screens whose fields change are classes. Their callbacks are methods with `modifies` clauses.
- Label and URI choices are functions.

Angles and distances are Dafny `real`s. Kotlin's operators are modelled explicitly:

- Floored `.mod` is `Numerics.Mod360`.
- Truncated `%` on `Double` is `Numerics.Rem360`.
- The truncating, saturating `toInt()` is `Numerics.ToInt`.
- `kotlin.math.round`, which rounds half to even, is `Numerics.RoundHalfEven`.

Calls into code the model cannot see become parameters:

- the trigonometry of `haversineDistanceKm` and `bearingDeg`
- `Location.distanceBetween`
- `SensorManager.getRotationMatrix`/`getOrientation`
- `"%.2f"` and `Double`-to-string formatting

Files:

- `numerics.dfy`: Kotlin arithmetic and the whole-turn relation.
- `text.dfy`: decimal rendering of integers and its read-back.
- `main_activity.dfy`: `normalizeDelta`, the bearing wrap, the distance and one geospatial step.
- `overlay_view.dfy`: `OverlayView`.
- `ar_navigation.dfy`: `ArNavigationActivity`.
- `compass_helper.dfy`: `CompassHelper`.
- `treasure_hunt.dfy`: `TreasureHuntActivity`.
- `place.dfy`: `Place` and `CampusData.places`.
- `campus_tour.dfy`: `CampusTourActivity`.
- `wrappers.dfy`: `Option`.

`normalizeDelta` returns values in the CLOSED range [-180, 180]:

- The first loop only runs below -180, so -180 comes back unchanged.
- The second loop only runs above 180, so 180 comes back unchanged.

The model follows the code. It does not follow the half-open (-180, 180] that a description of the function suggests, or the closed form `((d + 180) mod 360 + 360) mod 360 - 180`. `Geospatial.NormalizedVersusClosedForm` proves that the loops and the closed form differ exactly where the loops give 180.

The compass can emit 360 as well as 0. `Compass.EmitsFullTurn` exhibits the case.

## Model

| member | source | states |
|---|---|---|
| Numerics.Mod360 | app/src/main/java/com/example/ardeneme/sensors/compassHelper.kt:51 | Kotlin's floored `.mod(360f)` lands in [0, 360) and differs from its argument by whole turns |
| Numerics.Rem360 | app/src/main/java/com/example/ardeneme/MainActivity.kt:231 | Kotlin's truncated `% 360.0` lands in [0, 360) for a non-negative argument and in (-360, 0] for a negative one, by whole turns |
| Numerics.ToInt | app/src/main/java/com/example/ardeneme/ui/OverlayView.kt:59 | `Float.toInt()` truncates toward zero within the Int range and saturates at its bounds |
| Numerics.RoundHalfEven | app/src/main/java/com/example/ardeneme/sensors/compassHelper.kt:54 | `round` gives the nearest integer, the even one on a tie |
| Text.IntToString | app/src/main/java/com/example/ardeneme/ui/OverlayView.kt:59 | an `Int` in a string template is written canonically: a minus sign only for a negative number, then decimal digits with no leading zero (unless the number is 0) that read back as its magnitude |
| Text.NatToStringRoundTrip | app/src/main/java/com/example/ardeneme/ui/OverlayView.kt:59 | the decimal digits of a whole number read back as that number |
| Geospatial.Normalized | app/src/main/java/com/example/ardeneme/MainActivity.kt:235-240 | the normalised delta lies in the closed range [-180, 180], is the input moved by whole turns, fixes every input already in range, and goes up only to below 180 and down only to above -180 |
| Geospatial.NormalizedUnique | app/src/main/java/com/example/ardeneme/MainActivity.kt:237-238 | any value the two loops can reach by whole-turn steps and stop at is the normalised value |
| Geospatial.NormalizeDelta | app/src/main/java/com/example/ardeneme/MainActivity.kt:235-240 | the two `while` loops terminate and return exactly `Normalized(d)` |
| Geospatial.NormalizedIdempotent | app/src/main/java/com/example/ardeneme/MainActivity.kt:236-239 | normalising an already normalised delta changes nothing |
| Geospatial.NormalizedSameDirection | app/src/main/java/com/example/ardeneme/MainActivity.kt:237-238 | the normalised delta and the raw one are the same direction modulo 360 |
| Geospatial.NormalizedVersusClosedForm | app/src/main/java/com/example/ardeneme/MainActivity.kt:235-240 | the loops agree with the closed form everywhere except at 180, where the closed form gives -180 |
| Geospatial.BearingFromAtan2 | app/src/main/java/com/example/ardeneme/MainActivity.kt:230-231 | `(deg + 360) % 360` is in [0, 360) for every atan2 angle (indeed from -360 up), leaves [0, 360) unchanged, is not positive below -360, and keeps the direction |
| Geospatial.DistanceMeters | app/src/main/java/com/example/ardeneme/MainActivity.kt:152-157 | the distance in metres is 6371 km times the central angle times 1000, and is non-negative |
| Geospatial.HaversineDistanceKm | app/src/main/java/com/example/ardeneme/MainActivity.kt:207-215 | R * c with R = 6371 km is non-negative for a non-negative central angle |
| Geospatial.TurnDelta | app/src/main/java/com/example/ardeneme/MainActivity.kt:167 | the turn delta is in [-180, 180], faces the target modulo 360, is 0 when heading equals bearing and is the raw difference when that is in range |
| Geospatial.NavigationStep | app/src/main/java/com/example/ardeneme/MainActivity.kt:152-170 | one loop pass computes distance, bearing and delta from the pose and hands exactly those to the overlay |
| Overlay.DistanceText | app/src/main/java/com/example/ardeneme/ui/OverlayView.kt:58-62 | below 1000 the label is the canonical digits of the truncated metres (at most three, reading back as that number) followed by " m"; from 1000 up it is the km formatting of distance/1000 followed by " km" |
| Overlay.ArrowChar | app/src/main/java/com/example/ardeneme/ui/OverlayView.kt:66 | the arrow is "→" exactly when the delta is non-negative and "←" exactly when it is negative |
| Overlay.TurnMagnitude | app/src/main/java/com/example/ardeneme/ui/OverlayView.kt:68 | the shown degrees are the truncated magnitude of the delta, never negative, at most 180 for a normalised delta |
| Overlay.TurnText | app/src/main/java/com/example/ardeneme/ui/OverlayView.kt:68 | the turn text is the arrow, a space, the canonical digits of the magnitude (reading back as it), and a degree sign |
| Overlay.OverlayView.constructor | app/src/main/java/com/example/ardeneme/ui/OverlayView.kt:28-29 | distance and delta start at 0 |
| Overlay.OverlayView.SetNavigation | app/src/main/java/com/example/ardeneme/ui/OverlayView.kt:32-36 | the given distance and delta are stored unchanged and nothing else changes |
| Overlay.OverlayView.OnDraw | app/src/main/java/com/example/ardeneme/ui/OverlayView.kt:44-72 | the indicator rotates by the stored delta itself (not negated), and the two lines are "Distance: " and "Turn: " followed by the label texts |
| ArNavigation.TargetFromIntent | app/src/main/java/com/example/ardeneme/ArNavigationActivity.kt:57-59 | each target field comes from its intent extra, or its default when the extra is missing |
| ArNavigation.DefaultTarget | app/src/main/java/com/example/ardeneme/ArNavigationActivity.kt:34-36 | without extras the target is (35.24812, 33.02244, "Hedef") |
| ArNavigation.ArrowRotation | app/src/main/java/com/example/ardeneme/ArNavigationActivity.kt:161-168 | the arrow turns only about z, by the negated turn delta, so z is in [-180, 180], is the negated difference modulo 360 and is 0 when bearing equals azimuth |
| ArNavigation.DistanceInfo | app/src/main/java/com/example/ardeneme/ArNavigationActivity.kt:152 | the info line is the target name, " Hedefine: ", the truncated metres and " m" |
| ArNavigation.DistanceInfoReadsBack | app/src/main/java/com/example/ardeneme/ArNavigationActivity.kt:152 | for an in-range distance the metres in the info line read back as its truncation |
| ArNavigation.ArNavigationActivity.constructor | app/src/main/java/com/example/ardeneme/ArNavigationActivity.kt:32-38 | the target comes from the intent, there is no arrow yet, and both angles start at 0 |
| ArNavigation.ArNavigationActivity.SetupArrowNode | app/src/main/java/com/example/ardeneme/ArNavigationActivity.kt:100-120 | the arrow node appears unrotated |
| ArNavigation.ArNavigationActivity.UpdateArrowRotation | app/src/main/java/com/example/ardeneme/ArNavigationActivity.kt:157-169 | without an arrow nothing changes; otherwise the arrow is set to the rotation for the stored bearing and azimuth, normalised by the same loops as normalizeDelta |
| ArNavigation.ArNavigationActivity.OnAzimuth | app/src/main/java/com/example/ardeneme/ArNavigationActivity.kt:135-138 | a compass reading overwrites only the azimuth, keeps the bearing, and re-aims the arrow from both |
| ArNavigation.ArNavigationActivity.OnLocation | app/src/main/java/com/example/ardeneme/ArNavigationActivity.kt:141-153 | a fix overwrites only the bearing and the info line, keeps the azimuth, and re-aims the arrow from both |
| ArNavigation.FacingTargetScenario | app/src/main/java/com/example/ardeneme/ArNavigationActivity.kt:135-168 | with compass and bearing both at 90 the arrow is unrotated whichever callback comes last |
| Compass.DisplayRotationCompensation | app/src/main/java/com/example/ardeneme/sensors/compassHelper.kt:60-69 | ROTATION_90/180/270 give 90/180/270, and every other value gives 0 |
| Compass.CompensatedAzimuth | app/src/main/java/com/example/ardeneme/sensors/compassHelper.kt:51-52 | after compensation, `.mod(360f)` and the negative fix-up the azimuth is in [0, 360) and is the compensated azimuth modulo 360 |
| Compass.EmittedAzimuth | app/src/main/java/com/example/ardeneme/sensors/compassHelper.kt:54 | the delivered value is an integer in 0..360 within half a degree of the compensated azimuth, the even one when the azimuth is exactly halfway |
| Compass.EmitsFullTurn | app/src/main/java/com/example/ardeneme/sensors/compassHelper.kt:51-54 | an azimuth of -0.5 on an upright display becomes 359.5 and is delivered as 360, so 360 is reachable |
| Compass.CompassHelper.constructor | app/src/main/java/com/example/ardeneme/sensors/compassHelper.kt:19-22 | both buffers start as three zeros and no callback is registered |
| Compass.CompassHelper.Start | app/src/main/java/com/example/ardeneme/sensors/compassHelper.kt:24-25 | start registers the callback |
| Compass.CompassHelper.Stop | app/src/main/java/com/example/ardeneme/sensors/compassHelper.kt:30-33 | stop drops the callback |
| Compass.CompassHelper.OnSensorChanged | app/src/main/java/com/example/ardeneme/sensors/compassHelper.kt:35-56 | a null event does nothing; an accelerometer event overwrites only gravity and a magnetic event only geomag; a value is delivered only with a callback registered and a solvable matrix, and it is the emitted azimuth |
| TreasureHunt.FarText | app/src/main/java/com/example/ardeneme/TreasureHuntActivity.kt:119 | the far label is "Hazineye Mesafe: ", the canonical digits of the truncated distance (reading back as it), then "m" |
| TreasureHunt.TreasureHuntActivity.constructor | app/src/main/java/com/example/ardeneme/TreasureHuntActivity.kt:29-30 | the treasure is not found and there is no node yet |
| TreasureHunt.TreasureHuntActivity.SetupTreasureObject | app/src/main/java/com/example/ardeneme/TreasureHuntActivity.kt:82-101 | the node starts out hidden |
| TreasureHunt.TreasureHuntActivity.OnLocation | app/src/main/java/com/example/ardeneme/TreasureHuntActivity.kt:105-122 | after the find nothing changes; below 15 m the node shows and the toast fires only if it was hidden; from 15 m up (15.0 included) the node hides and the distance label is shown; a found treasure's node is never visible |
| TreasureHunt.TreasureHuntActivity.CollectTreasure | app/src/main/java/com/example/ardeneme/TreasureHuntActivity.kt:125-130 | collecting sets found for good, hides the node, sets the congratulations and adds the points toast, with no distance check |
| TreasureHunt.ThresholdScenario | app/src/main/java/com/example/ardeneme/TreasureHuntActivity.kt:112-121 | fixes at 20, 16, 14.9, 15.0, 10 m show the node only at 14.9 and 10, with one toast per reappearance |
| TreasureHunt.CollectedIsTerminalScenario | app/src/main/java/com/example/ardeneme/TreasureHuntActivity.kt:106 | after collection even a fix at 0 m leaves the node hidden and the congratulations shown |
| CampusData.Find | app/src/main/java/com/example/ardeneme/CampusTourActivity.kt:129 | `find` returns None exactly when no place has the name, and otherwise the first place with it |
| CampusData.FindOwnName | app/src/main/java/com/example/ardeneme/CampusTourActivity.kt:129 | with distinct names a place is found by its own name |
| CampusData.PlacesCount | app/src/main/java/com/example/ardeneme/Place.kt:12-22 | the table has nine places |
| CampusData.PlacesNamesDistinct | app/src/main/java/com/example/ardeneme/Place.kt:13-21 | no two places share a name |
| CampusData.FindEveryPlace | app/src/main/java/com/example/ardeneme/Place.kt:13-21 | every place in the table is found by its name |
| CampusData.PlacesInCampusBox | app/src/main/java/com/example/ardeneme/Place.kt:13-21 | every latitude is in [35.246, 35.250] and every longitude in [33.021, 33.027] |
| CampusTour.SentinelIsNoPlace | app/src/main/java/com/example/ardeneme/CampusTourActivity.kt:34 | no place is named "Current Location" |
| CampusTour.PlaceNames | app/src/main/java/com/example/ardeneme/CampusTourActivity.kt:67 | `places.map { it.name }` keeps length and order |
| CampusTour.ToList | app/src/main/java/com/example/ardeneme/CampusTourActivity.kt:76-79 | the destination list is the place names in table order |
| CampusTour.FromList | app/src/main/java/com/example/ardeneme/CampusTourActivity.kt:67-74 | the start list is "Current Location" followed by the place names, and the sentinel occurs only first |
| CampusTour.NavigationUri | app/src/main/java/com/example/ardeneme/CampusTourActivity.kt:143 | the URI is "google.navigation:q=", the target's latitude and longitude separated by a comma, then "&mode=w" |
| CampusTour.DirectionsUri | app/src/main/java/com/example/ardeneme/CampusTourActivity.kt:148 | the URI is "http://maps.google.com/maps?saddr=", the start's coordinates, "&daddr=", the target's coordinates, then "&mode=w" |
| CampusTour.ChooseAction | app/src/main/java/com/example/ardeneme/CampusTourActivity.kt:126-152 | an unknown destination does nothing; AR mode launches the AR screen exactly when the destination is known, with intent extras that give that place's coordinates and name as target; map mode opens the navigation URI from "Current Location" and the directions URI from a known start, doing nothing for an unknown start |
| CampusTour.CampusTourActivity.constructor | app/src/main/java/com/example/ardeneme/CampusTourActivity.kt:35 | the screen starts in map mode, AR enabled, with "Current Location" and the first place selected |
| CampusTour.CampusTourActivity.SelectMode | app/src/main/java/com/example/ardeneme/CampusTourActivity.kt:109-110 | selectMode sets the mode to its argument, and AR mode is chosen only while the AR button is enabled, so the screen stays consistent |
| CampusTour.CampusTourActivity.OnFromItemSelected | app/src/main/java/com/example/ardeneme/CampusTourActivity.kt:82-95 | choosing a place as start disables AR and forces map mode; choosing "Current Location" enables AR and keeps the mode |
| CampusTour.CampusTourActivity.OnToItemSelected | app/src/main/java/com/example/ardeneme/CampusTourActivity.kt:77-79 | choosing a destination only moves the destination selection |
| CampusTour.CampusTourActivity.OnMapButtonClick | app/src/main/java/com/example/ardeneme/CampusTourActivity.kt:101 | the map button selects map mode |
| CampusTour.CampusTourActivity.OnArButtonClick | app/src/main/java/com/example/ardeneme/CampusTourActivity.kt:102 | the AR button selects AR mode when it is enabled, so AR mode is only ever on with "Current Location" as start |
| CampusTour.CampusTourActivity.StartNavigation | app/src/main/java/com/example/ardeneme/CampusTourActivity.kt:126-152 | starting from spinner selections is the decision above, always acts, and launches the AR screen only from "Current Location" |

## Left out

- The trigonometry of haversineDistanceKm and bearingDeg (sin, cos, atan2, sqrt, toRadians) is floating-point numerics; the central angle and the atan2 angle in degrees are parameters.
- `Location.distanceBetween` and `SensorManager.getRotationMatrix`/`getOrientation` are platform calls; their results are parameters (a distance and bearing, and a solver returning an optional azimuth).
- Float and Double rounding, NaN and infinities are not modelled: all values are exact reals.
- Geospatial.NormalizeDelta and ArNavigation.ArNavigationActivity.UpdateArrowRotation terminate on every real, but the Kotlin Float loops do not terminate once |x| is at least 2^33 (or infinite), because `x - 360f` then rounds back to x. The app's angle differences are bounded by a few hundred degrees, so it never passes such a value.
- Permissions, activity lifecycle, ARCore session setup and SceneView node loading are Android and ARCore plumbing.
- The geospatial render loop's background thread, its volatile flag, `Thread.sleep` and `runOnUiThread` are concurrency; NavigationStep models one pass of the loop body once the earth is tracking.
- MainActivity's multi-line status text formats Doubles with "%.5f"/"%.1f"; it is display formatting and not modelled.
- Drawing (paints, chevron geometry, canvas calls) and `invalidate()` are rendering; OverlayView.OnDraw returns what it would draw as a Frame.
- Toasts, scene nodes and button colours are rendering; they are modelled as a toast log, an optional visibility or rotation, and an enabled flag.
- Number formatting inside labels and URIs ("%.2f", Double to string) is a parameter `fmt`/`formatKm`.
- Compass.CompassHelper.OnSensorChanged: requires at least three values in an accelerometer or magnetic event, ruling out the `ArrayIndexOutOfBoundsException` that `System.arraycopy` would throw; Android delivers three values for both sensor types.
- Whether SceneView delivers a tap to a hidden node is outside the code: collectTreasure is modelled as callable at any time, as its body has no guard.
- CampusTour.CampusTourActivity.OnArButtonClick: a click on the disabled AR button is taken as not delivered, which is how Android treats a disabled button.
- The map view (onMapReady, enableMyLocation) and the maps-app intent with its browser fallback are hand-off to other apps; startNavigation's result is the URI or the AR intent extras it would start.
- Spinner items are identified by position; the timing of Android's initial onItemSelected call is not modelled.
- locationHelper's start-once guard and the fused location client are not part of this model; fixes arrive as calls to OnLocation.
- Symmetry of the haversine distance and the end-to-end trigonometric examples need the trigonometry left out above.
