/** The server side of the plugin (class WDS_GoogleMaps): the save and load
    controller over the post-metadata store, the map container markup, the
    shortcode and the coordinate extraction of the address lookup. */
module GoogleMap {
  import opened Php

  type PostId = int

  /** The nonce action and the capability the save checks. */
  const NonceAction := "wdsgmap_details"
  const EditPostCapability := "edit_post"

  /** Map container size used when none is given. */
  const DefaultHeight := "200px"
  const DefaultWidth := "100%"

  /** The record kept under the `_wdsgmap_details` metadata key. */
  datatype Location = Location(address: string, latitude: string, longitude: string)

  /** The entries of `$_POST` the save reads; each may be missing. */
  datatype SaveForm = SaveForm(
    nonce: Option<string>,
    address: Option<string>,
    latitude: Option<string>,
    longitude: Option<string>)

  /** A `$size` array with both keys filled in. */
  datatype Dimensions = Dimensions(height: string, width: string)

  /** A `$size` array as passed to `map_markup`; either key may be missing. */
  datatype SizeRequest = SizeRequest(height: Option<string>, width: Option<string>)

  /** The WordPress functions the plugin calls, taken as given:
      `wp_verify_nonce`, `current_user_can`, whether `DOING_AUTOSAVE` is
      defined and true, `sanitize_text_field`, `esc_attr` and the
      `wdsgmap_map_size` filter. */
  datatype Host = Host(
    verifyNonce: (string, string) -> bool,
    currentUserCan: (string, PostId) -> bool,
    doingAutosave: bool,
    sanitizeTextField: string -> string,
    escAttr: string -> string,
    mapSizeFilter: Dimensions -> Dimensions)

  /** The host's metadata store, restricted to the `_wdsgmap_details` key. */
  class PostMeta {
    var details: map<PostId, Location>

    /** `update_post_meta`: the entry of `id` is replaced, nothing else changes. */
    method Update(id: PostId, fields: Location)
      modifies this
      ensures details == old(details)[id := fields]
    {
      details := details[id := fields];
    }

    /** `delete_post_meta`: the entry of `id` is removed if there is one. */
    method Delete(id: PostId)
      modifies this
      ensures details == old(details) - {id}
    {
      details := details - {id};
    }
  }

  // ---------------------------------------------------------------------
  // Save and load

  /** The three guards of the save: a nonce is present and verifies, no
      autosave is running, and the user may edit the post. */
  predicate SaveAllowed(postId: PostId, form: SaveForm, host: Host) {
    form.nonce.Some? && host.verifyNonce(form.nonce.value, NonceAction)
    && !host.doingAutosave
    && host.currentUserCan(EditPostCapability, postId)
  }

  /** `map_metabox_sanitize_fields`: a record exactly when all three entries
      are truthy (so "0" counts as missing), holding their sanitized values. */
  function SanitizeFields(form: SaveForm, sanitize: string -> string): (r: Option<Location>)
    ensures r.Some? <==> Truthy(form.address) && Truthy(form.latitude) && Truthy(form.longitude)
    ensures r.Some? ==>
      r.value.address == sanitize(form.address.value)
      && r.value.latitude == sanitize(form.latitude.value)
      && r.value.longitude == sanitize(form.longitude.value)
  {
    if Truthy(form.address) && Truthy(form.latitude) && Truthy(form.longitude) then
      Some(Location(
        sanitize(form.address.value),
        sanitize(form.latitude.value),
        sanitize(form.longitude.value)))
    else
      None
  }

  /** The store after `map_metabox_save`: untouched unless every guard
      passes; then the post's record is the sanitized form when all three
      fields are truthy and is gone otherwise. No other post's record moves. */
  function SaveEffect(details: map<PostId, Location>, postId: PostId, form: SaveForm, host: Host)
    : (r: map<PostId, Location>)
    ensures !SaveAllowed(postId, form, host) ==> r == details
    ensures forall id :: id != postId ==> (id in r <==> id in details)
    ensures forall id :: id != postId && id in r ==> r[id] == details[id]
    ensures SaveAllowed(postId, form, host) ==>
      (postId in r <==> Truthy(form.address) && Truthy(form.latitude) && Truthy(form.longitude))
    ensures SaveAllowed(postId, form, host) && postId in r ==>
      r[postId] == Location(
        host.sanitizeTextField(form.address.value),
        host.sanitizeTextField(form.latitude.value),
        host.sanitizeTextField(form.longitude.value))
  {
    if !SaveAllowed(postId, form, host) then
      details
    else
      match SanitizeFields(form, host.sanitizeTextField)
      case Some(fields) => details[postId := fields]
      case None => details - {postId}
  }

  /** A stored value as `map_metabox_get_fields` passes it on: itself when
      not empty, "" otherwise. */
  function OrBlank(v: string): (r: string)
    ensures r == v || r == ""
    ensures r == "" <==> EmptyString(v)
  {
    if EmptyString(v) then "" else v
  }

  /** What `map_metabox_get_fields` returns for a post; a post without a
      record reads as an empty array, so every key defaults to "". */
  function LoadedFields(details: map<PostId, Location>, postId: PostId): (f: Location)
    ensures postId !in details ==> f == Location("", "", "")
    ensures postId in details ==>
      (f.address == "" <==> EmptyString(details[postId].address))
      && (f.latitude == "" <==> EmptyString(details[postId].latitude))
      && (f.longitude == "" <==> EmptyString(details[postId].longitude))
    ensures postId in details ==>
      (f.address == "" || f.address == details[postId].address)
      && (f.latitude == "" || f.latitude == details[postId].latitude)
      && (f.longitude == "" || f.longitude == details[postId].longitude)
  {
    if postId in details then
      var stored := details[postId];
      Location(OrBlank(stored.address), OrBlank(stored.latitude), OrBlank(stored.longitude))
    else
      Location("", "", "")
  }

  /** Loaded fields are never "0": a stored "0" comes back as "". */
  lemma LoadedFieldsNeverZero(details: map<PostId, Location>, postId: PostId)
    ensures var f := LoadedFields(details, postId);
      f.address != "0" && f.latitude != "0" && f.longitude != "0"
  {
  }

  // ---------------------------------------------------------------------
  // Map size and shortcode

  /** The size `map_markup` renders. A missing or empty height becomes
      200px and a missing or empty width 100%; the size filter sees the
      defaulted size only outside the admin screen, and only when neither
      dimension was given. */
  function ResolveSize(size: SizeRequest, admin: bool, filter: Dimensions -> Dimensions)
    : (d: Dimensions)
    ensures !admin && EmptyEntry(size.height) && EmptyEntry(size.width) ==>
      d == filter(Dimensions(DefaultHeight, DefaultWidth))
    ensures admin || Truthy(size.height) || Truthy(size.width) ==>
      d.height == (if Truthy(size.height) then size.height.value else DefaultHeight)
      && d.width == (if Truthy(size.width) then size.width.value else DefaultWidth)
  {
    var custom := Truthy(size.height) || Truthy(size.width);
    var defaulted := Dimensions(
      if EmptyEntry(size.height) then DefaultHeight else size.height.value,
      if EmptyEntry(size.width) then DefaultWidth else size.width.value);
    if !admin && !custom then filter(defaulted) else defaulted
  }

  /** The map container element, given the escaped height and width. */
  function ContainerMarkup(height: string, width: string): string {
    "<div id=\"map_canvas\" style=\"height:" + height + "; width:" + width + ";\"></div>"
  }

  /** `shortcode_atts` with the defaults height = "" and width = "". */
  function ShortcodeAttribute(atts: map<string, string>, name: string): string {
    if name in atts then atts[name] else ""
  }

  function ShortcodeSize(atts: map<string, string>): SizeRequest {
    SizeRequest(Some(ShortcodeAttribute(atts, "height")), Some(ShortcodeAttribute(atts, "width")))
  }

  /** The shortcode's test: the post has a record whose latitude and
      longitude are both truthy. */
  predicate HasMapCoordinates(details: map<PostId, Location>, postId: PostId) {
    postId in details
    && Truthy(Some(details[postId].latitude))
    && Truthy(Some(details[postId].longitude))
  }

  // ---------------------------------------------------------------------
  // Address lookup

  /** One placemark of the geocoder's reply, reduced to `Point.coordinates`,
      which lists longitude, latitude and altitude in that order. */
  datatype Placemark = Placemark(coordinates: seq<string>)

  /** The reply of `wp_remote_get`: a WP_Error, or a body whose JSON has
      been decoded into its `Placemark` list. */
  datatype GeocodeResponse = TransportError | Parsed(placemarks: seq<Placemark>)

  /** The JSON object the lookup sends back to the editor. */
  datatype Coordinates = Coordinates(latitude: string, longitude: string)

  /** What the lookup reads without checking: a first placemark with at
      least a longitude and a latitude. */
  predicate Extractable(response: GeocodeResponse) {
    response.Parsed? ==>
      |response.placemarks| > 0 && |response.placemarks[0].coordinates| >= 2
  }

  /** The coordinates `google_address_search` answers: empty strings on a
      transport error, otherwise the first placemark's pair read back in
      (latitude, longitude) order. */
  function ExtractCoordinates(response: GeocodeResponse): (c: Coordinates)
    requires Extractable(response)
    ensures response.TransportError? ==> c == Coordinates("", "")
    ensures response.Parsed? ==>
      [c.longitude, c.latitude] == response.placemarks[0].coordinates[..2]
  {
    match response
    case TransportError => Coordinates("", "")
    case Parsed(placemarks) =>
      var point := placemarks[0].coordinates;
      Coordinates(point[1], point[0])
  }

  // ---------------------------------------------------------------------
  // The plugin object

  class Plugin {
    /** The coordinates the shortcode hands to the footer map script. */
    var latitude: string
    var longitude: string

    constructor ()
      ensures latitude == "" && longitude == ""
    {
      latitude := "";
      longitude := "";
    }

    /** `map_metabox_save`: returns the post id on every path; a failed
        guard leaves the store as it was, otherwise the post's record is
        written or deleted as SaveEffect says. */
    method MetaboxSave(meta: PostMeta, postId: PostId, form: SaveForm, host: Host) returns (r: PostId)
      modifies meta
      ensures r == postId
      ensures meta.details == SaveEffect(old(meta.details), postId, form, host)
    {
      if form.nonce.None? || !host.verifyNonce(form.nonce.value, NonceAction) {
        return postId;
      }
      if host.doingAutosave {
        return postId;
      }
      if !host.currentUserCan(EditPostCapability, postId) {
        return postId;
      }
      var fields := SanitizeFields(form, host.sanitizeTextField);
      if fields.Some? {
        meta.Update(postId, fields.value);
      } else {
        meta.Delete(postId);
      }
      return postId;
    }

    /** `map_metabox_get_fields`: the post's record with each empty value
        replaced by "", or three "" when the post has none. */
    method GetFields(meta: PostMeta, postId: PostId) returns (fields: Location)
      ensures fields == LoadedFields(meta.details, postId)
      ensures postId in meta.details ==>
        (fields.address == "" <==> EmptyString(meta.details[postId].address))
        && (fields.latitude == "" <==> EmptyString(meta.details[postId].latitude))
        && (fields.longitude == "" <==> EmptyString(meta.details[postId].longitude))
      ensures postId in meta.details && fields.latitude != "" ==>
        fields.latitude == meta.details[postId].latitude
      ensures postId in meta.details && fields.longitude != "" ==>
        fields.longitude == meta.details[postId].longitude
      ensures postId in meta.details && fields.address != "" ==>
        fields.address == meta.details[postId].address
      ensures postId !in meta.details ==> fields == Location("", "", "")
    {
      // get_post_meta yields "" for a post without the key; PHP then treats
      // it as an empty array whose entries read as null.
      var stored: Location := if postId in meta.details then meta.details[postId] else Location("", "", "");
      fields := stored;
      fields := fields.(address := if !EmptyString(fields.address) then fields.address else "");
      fields := fields.(latitude := if !EmptyString(fields.latitude) then fields.latitude else "");
      fields := fields.(longitude := if !EmptyString(fields.longitude) then fields.longitude else "");
    }

    /** `map_markup`: fills in the default size, consults the size filter
        only outside the admin screen and without a custom size, and wraps
        the escaped size in the container element. */
    method MapMarkup(size: SizeRequest, admin: bool, host: Host) returns (html: string)
      ensures var d := ResolveSize(size, admin, host.mapSizeFilter);
        html == ContainerMarkup(host.escAttr(d.height), host.escAttr(d.width))
    {
      var custom := !EmptyEntry(size.height) || !EmptyEntry(size.width);
      var height := if EmptyEntry(size.height) then DefaultHeight else size.height.value;
      var width := if EmptyEntry(size.width) then DefaultWidth else size.width.value;
      var resolved := Dimensions(height, width);
      if !admin && !custom {
        resolved := host.mapSizeFilter(resolved);
      }
      html := ContainerMarkup(host.escAttr(resolved.height), host.escAttr(resolved.width));
    }

    /** `wds_gmap_shortcode`: without stored coordinates it renders "" and
        leaves the object's coordinates alone; with them it records them
        for the footer script and renders the container at the requested
        size. */
    method Shortcode(meta: PostMeta, postId: PostId, atts: map<string, string>, host: Host)
      returns (html: string)
      modifies this
      ensures !HasMapCoordinates(meta.details, postId) ==>
        html == "" && latitude == old(latitude) && longitude == old(longitude)
      ensures HasMapCoordinates(meta.details, postId) ==>
        latitude == meta.details[postId].latitude
        && longitude == meta.details[postId].longitude
        && var d := ResolveSize(ShortcodeSize(atts), false, host.mapSizeFilter);
           html == ContainerMarkup(host.escAttr(d.height), host.escAttr(d.width))
    {
      html := "";
      var height := ShortcodeAttribute(atts, "height");
      var width := ShortcodeAttribute(atts, "width");
      // A post without the key reads as "", whose entries are falsy.
      var coordinates: Location := if postId in meta.details then meta.details[postId] else Location("", "", "");
      if Truthy(Some(coordinates.latitude)) && Truthy(Some(coordinates.longitude)) {
        latitude := coordinates.latitude;
        longitude := coordinates.longitude;
        html := MapMarkup(SizeRequest(Some(height), Some(width)), false, host);
      }
    }
  }
}
