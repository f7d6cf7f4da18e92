# WDS Google Maps, modelled in Dafny

The WDS Google Maps WordPress plugin attaches one geocoded location to a
post or page. The location is a record `{address, latitude, longitude}`
kept under the post-meta key `_wdsgmap_details`. An author edits the
location in an admin metabox that holds an interactive map. A
`[wds-gmap]` shortcode then shows the stored point on the public page.

This project models the plugin's decision logic and proves what it
guarantees:

- `php.dfy` (module `Php`): what PHP's `empty()` and a boolean test make
  of a string, including the fact that `"0"` counts as empty.
- `google_map.dfy` (module `GoogleMap`): the server side of class
  `WDS_GoogleMaps`.
  - The host's metadata store is a class `PostMeta`. Its field is a map
    from post id to `Location`.
  - The plugin object is a class `Plugin`. It has the `latitude` and
    `longitude` fields that the shortcode assigns.
  - Its methods are the save controller, the field loader, the container
    markup and the shortcode. Each is proved against pure functions:
    - `MetaboxSave` against `SaveEffect`, which is built on `SanitizeFields`;
    - `GetFields` against `LoadedFields`;
    - `MapMarkup` against `ResolveSize` and `ContainerMarkup`;
    - `Shortcode` against `HasMapCoordinates`, `ShortcodeSize` and
      `ResolveSize`.
  - The coordinate extraction of the address lookup is the function
    `ExtractCoordinates`.
- `admin_editor.dfy` (module `AdminEditor`): the script of the admin map
  editor.
  - The script's state is the class `Editor`: three form fields, the
    marker position, the map centre and the zoom.
  - Each event handler is a method. Its contract ties the new state to a
    pure step function.
  - Lemmas over arbitrary sequences of handler events show two things.
    The handlers keep the editor consistent. Only the clear button ever
    changes the address field. The map's own zoom and pan controls are
    not events of the model (see "## Left out").
- `workflow.dfy` (module `Workflow`): lemmas that connect the three
  parts. They cover save then load, save then shortcode, save then
  reopening the editor, a lookup followed by the search callback, and a
  clear or a failed lookup followed by a save.

Three kinds of host call are modelled concretely:
- the metadata store (`get_post_meta`, `update_post_meta`,
  `delete_post_meta`) as a map in `PostMeta`;
- `shortcode_atts` as a key-or-default lookup (`ShortcodeAttribute`);
- jQuery's `.val` and the marker's and map's `setPosition`, `setCenter`
  and `setZoom` as field assignments in `Editor`.

Every other WordPress and browser function the code calls is a
function-typed field that the proofs take as given. On the server these are
`wp_verify_nonce`, `current_user_can`, `DOING_AUTOSAVE`,
`sanitize_text_field`, `esc_attr` and the `wdsgmap_map_size` filter
(`GoogleMap.Host`). In the browser they are the position that
`new google.maps.LatLng(lat, lon)` makes of two field texts, and
`toFixed(6)` (`AdminEditor.Runtime`).

## Behaviour worth knowing

- A failed lookup blanks both coordinate fields. The server answers `""`
  and `""` (wds-google-map.php:213-214, 235). The success callback passes
  them to `wds_map_markers_set` (js/wdsgmap-admin.js:62-64), which writes
  them into the fields and zooms to street level. A save after that
  deletes the record (`Workflow.FailedLookupDeletesOnSave`).
- The lookup reads the first placemark of the reply without checking that
  there is one (wds-google-map.php:229-230).
- Save, load and the shortcode test values with PHP's rules, where the
  string `"0"` counts as missing. A latitude or longitude of exactly `"0"`
  therefore deletes the record on save (wds-google-map.php:169) and loads
  as `""` (wds-google-map.php:194-195). The editor tests with JavaScript's
  rules, where only `""` is false (js/wdsgmap-admin.js:37).

## Model

| member | source | states |
|---|---|---|
| `GoogleMap.SanitizeFields` | wds-google-map.php:164-177 | a record exists exactly when address, latitude and longitude are all truthy (so "" and "0" and a missing entry count as absent), and it holds the three sanitized values |
| `GoogleMap.SaveEffect` | wds-google-map.php:132-153 | a failed nonce, autosave or permission guard leaves the store unchanged; otherwise the post keeps a record exactly when all three fields are truthy, that record is the sanitized form, and no other post's entry is added, removed or changed |
| `GoogleMap.PostMeta.Update` | wds-google-map.php:150 | `update_post_meta` replaces the post's entry and changes nothing else |
| `GoogleMap.PostMeta.Delete` | wds-google-map.php:150 | `delete_post_meta` removes the post's entry, if any, and changes nothing else |
| `GoogleMap.Plugin.MetaboxSave` | wds-google-map.php:132-154 | returns the post id unchanged on every path, and leaves the store as `SaveEffect` describes |
| `GoogleMap.OrBlank` | wds-google-map.php:193-195 | the value passed on is the stored value or "", and it is "" exactly when the stored value is empty in PHP's sense |
| `GoogleMap.Plugin.GetFields` | wds-google-map.php:189-200 | always yields all three keys; each is "" exactly when the stored value is empty ("" or "0") and is otherwise the stored value; a post without a record gives three ""; the result is `LoadedFields`, which the cross-component lemmas use |
| `GoogleMap.LoadedFields` | wds-google-map.php:189-198 | specifies `Plugin.GetFields` and is what the cross-component lemmas load: three "" for a post without a record, otherwise each field is "" exactly when the stored value is empty and is the stored value when it is not |
| `GoogleMap.LoadedFieldsNeverZero` | wds-google-map.php:193-195 | no loaded field is ever "0" |
| `GoogleMap.ResolveSize` | wds-google-map.php:254-265 | specifies `Plugin.MapMarkup`: a missing or empty height becomes 200px and width 100%; the size filter is applied, to 200px by 100%, only outside the admin screen and when neither dimension was given; with one dimension given, the other is defaulted and the filter is skipped |
| `GoogleMap.Plugin.MapMarkup` | wds-google-map.php:251-270 | the markup is exactly the `map_canvas` div whose style carries the escaped resolved height and width |
| `GoogleMap.Plugin.constructor` | wds-google-map.php:14-19 | the object's latitude and longitude start as "" |
| `GoogleMap.Plugin.Shortcode` | wds-google-map.php:282-318 | without a stored record whose latitude and longitude are both truthy, renders "" and leaves the object's coordinates unchanged; otherwise records the stored coordinates and renders the container at the shortcode's height and width |
| `GoogleMap.ExtractCoordinates` | wds-google-map.php:212-235 | a transport error answers "" and ""; otherwise the answer read as (longitude, latitude) is the first placemark's first two coordinates, so latitude = coordinates[1] and longitude = coordinates[0] |
| `AdminEditor.Editor.constructor` | js/wdsgmap-admin.js:3-23 | after document-ready the fields hold the rendered values, the map is centred on (37.5, -97.7) at zoom 4 and the marker has no position |
| `AdminEditor.Editor.MarkersSet` | js/wdsgmap-admin.js:26-32 | marker and centre are at (lat, lon), zoom is 16 and the fields hold lat and lon; the address field is unchanged |
| `AdminEditor.Editor.OnCanvasReady` | js/wdsgmap-admin.js:35-40 | when both loaded coordinates are non-empty the editor is set to them, otherwise nothing changes |
| `AdminEditor.Editor.OnDragEnd` | js/wdsgmap-admin.js:43-46 | the coordinate fields become the dragged position to six decimals; the address, centre and zoom are unchanged |
| `AdminEditor.Editor.OnSearchSuccess` | js/wdsgmap-admin.js:62-64 | the reply's coordinates are set as by `wds_map_markers_set`, and the address field is unchanged |
| `AdminEditor.Editor.OnClear` | js/wdsgmap-admin.js:69-83 | all three fields are "", the marker has no position, and the map is back at (37.5, -97.7) and zoom 4 |
| `AdminEditor.Editor.Handle` | js/wdsgmap-admin.js:43-83 | each event changes the editor as the pure step function says, which the event-sequence lemmas reason about |
| `AdminEditor.OpenedConsistent` | js/wdsgmap-admin.js:7-40 | a freshly loaded editor is consistent, keeps the rendered address, and has a placed marker exactly when both loaded coordinates are non-empty |
| `AdminEditor.StepConsistent` | js/wdsgmap-admin.js:26-83 | every handler keeps the view consistent (zoom 4 with the default centre, or zoom 16; no marker means zoom 4) and keeps a placed marker in step with the coordinate fields |
| `AdminEditor.RunConsistent` | js/wdsgmap-admin.js:26-83 | consistency holds after any sequence of drag, lookup and clear events |
| `AdminEditor.RunAddress` | js/wdsgmap-admin.js:26-83 | after any event sequence the address field is "" if a clear occurred and is otherwise the starting address |
| `AdminEditor.RunThenStep` | js/wdsgmap-admin.js:43-83 | handling one more event applies one more step to the state reached so far |
| `AdminEditor.ClearResets` | js/wdsgmap-admin.js:69-83 | clearing gives the state the editor opens in on an empty form, whatever the state before; clearing twice equals clearing once |
| `Workflow.ZeroLatitudeDeletes` | wds-google-map.php:169 | a permitted save with latitude "0" deletes the post's record |
| `Workflow.SaveThenLoad` | wds-google-map.php:150-195 | after a permitted save of three truthy fields, loading gives back the sanitized values, each blanked if it sanitized to "" or "0" |
| `Workflow.SavedLocationShowsOnPage` | wds-google-map.php:150-299 | after a permitted save, the shortcode finds coordinates exactly when all three fields were truthy and both sanitized coordinates are non-empty |
| `Workflow.SavedLocationReopensEditor` | js/wdsgmap-admin.js:7-40 | a location saved with non-empty coordinates, echoed into the metabox through `sanitize_text_field` again (wds-google-map.php:110-114), reopens the editor with the marker and centre on them at zoom 16, provided a second sanitizing pass leaves the saved coordinates unchanged |
| `Workflow.LookupFillsCoordinates` | js/wdsgmap-admin.js:62-64 | a found address puts coordinates[1] into the latitude field and coordinates[0] into the longitude field, places the marker there and keeps the address |
| `Workflow.FailedLookupDeletesOnSave` | wds-google-map.php:213-235 | a transport error blanks both coordinate fields through the success callback, and the next permitted save deletes the record |
| `Workflow.ClearedEditorDeletesOnSave` | js/wdsgmap-admin.js:69-83 | after any event sequence that ends with a clear, the editor is in its empty-form state and a permitted save deletes the record |

## Left out

- Hook, shortcode and script registration, enqueueing and `wp_localize_script` (wds-google-map.php:34-66, 309-312): these only wire the plugin into the host and contain no decisions.
- `map_metabox_add` and the metabox HTML of `map_metabox_show` (wds-google-map.php:76-120): presentation. The editor's starting field values are parameters. Only `Workflow.SavedLocationReopensEditor` applies the second `sanitize_text_field` of the echo to them.
- `Workflow.SavedLocationReopensEditor`: assumes that `sanitize_text_field` returns the saved latitude and longitude unchanged on a second pass, and that the HTML decoding of the `value="…"` attribute they are echoed into without `esc_attr` (wds-google-map.php:113-114) leaves them unchanged. The host function is taken as given and its idempotence is not known. An entity such as `&amp;` or a `"` in a saved value would break that equality; numeric coordinates are unaffected.
- WordPress's slashing of `$_POST` and the `wp_unslash` that `update_post_meta` applies to its value are not modelled. The form entries are read as the user's own text and stored as given.
- `map_script` (wds-google-map.php:328-347): it emits a script string for the map runtime.
- The HTTP request of `google_address_search` (`sanitize_text_field` of the address, `urlencode`, `esc_url`, `wp_remote_get`, `json_decode`, `json_encode`, `die`; wds-google-map.php:217-226, 235): network I/O and library code. The model starts from an already decoded reply.
- `GoogleMap.ExtractCoordinates`: requires a first placemark with at least two coordinates. The code reads them without a check, so the model does not say what happens on an empty result.
- JSON numbers in the lookup reply are modelled as the text they are written as. JavaScript numbers are modelled as `real`. Floating-point rounding and `toFixed(6)` are abstract functions.
- A `$_POST` entry that is an array rather than a string is not modelled.
- A post without a record is read as PHP 5 reads it: the `""` that `get_post_meta` returns acts as an empty array, so every key falls back to `""`. Later PHP versions warn about or reject the string offset. The model does not capture that.
- Google Maps rendering and the drag mechanics: a drag is an event that carries the position where the library left the marker.
- The map's own zoom and pan controls: the map is created with Google Maps' default controls (js/wdsgmap-admin.js:13-17), so the user can change the centre and the zoom without any handler running. `AdminEditor.StepConsistent`, `AdminEditor.RunConsistent` and `AdminEditor.OpenedConsistent` therefore cover the handlers' events only. Outside them the view part of the invariant (zoom 4 with the default centre, or zoom 16) need not hold on the live page.
- `AdminEditor.Step` accepts a `DragEnd` while the marker has no position. A marker without a position is not shown and cannot be dragged, so the model lets through events that the page never produces. The invariants hold for them as well.
- The asynchronous `$.ajax` round trip and the race between two outstanding lookups (js/wdsgmap-admin.js:49-61): a reply is one atomic event. The click handlers' `preventDefault` changes no modelled state.
- Typing into the address field is the browser's doing, not a handler's, and is not an event of the model.
