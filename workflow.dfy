/** How the pieces meet: the editor's fields are what the save reads, the
    stored record is what the editor and the shortcode load, and the
    lookup's reply is what the search callback writes. */
module Workflow {
  import opened Php
  import opened GoogleMap
  import opened AdminEditor

  /** The form the browser posts from the editor's three fields. */
  function SubmittedForm(s: EditorState, nonce: Option<string>): SaveForm {
    SaveForm(nonce, Some(s.address), Some(s.latitude), Some(s.longitude))
  }

  /** A latitude of "0" counts as missing: a permitted save deletes the record. */
  lemma ZeroLatitudeDeletes(details: map<PostId, Location>, postId: PostId, form: SaveForm, host: Host)
    requires SaveAllowed(postId, form, host)
    requires form.latitude == Some("0")
    ensures postId !in SaveEffect(details, postId, form, host)
  {
  }

  /** Saving and loading again gives back the sanitized values, except that
      a value sanitized to "" or "0" loads as "". */
  lemma SaveThenLoad(details: map<PostId, Location>, postId: PostId, form: SaveForm, host: Host)
    requires SaveAllowed(postId, form, host)
    requires Truthy(form.address) && Truthy(form.latitude) && Truthy(form.longitude)
    ensures LoadedFields(SaveEffect(details, postId, form, host), postId) == Location(
      OrBlank(host.sanitizeTextField(form.address.value)),
      OrBlank(host.sanitizeTextField(form.latitude.value)),
      OrBlank(host.sanitizeTextField(form.longitude.value)))
  {
  }

  /** After a permitted save the shortcode shows a map exactly when all three
      fields were truthy and both coordinates are still non-empty once
      sanitized. */
  lemma SavedLocationShowsOnPage(details: map<PostId, Location>, postId: PostId, form: SaveForm, host: Host)
    requires SaveAllowed(postId, form, host)
    ensures HasMapCoordinates(SaveEffect(details, postId, form, host), postId) <==>
      Truthy(form.address) && Truthy(form.latitude) && Truthy(form.longitude)
      && !EmptyString(host.sanitizeTextField(form.latitude.value))
      && !EmptyString(host.sanitizeTextField(form.longitude.value))
  {
  }

  /** A location saved with non-empty coordinates reopens the editor with the
      marker on it at street zoom. The metabox echoes each loaded field
      through `sanitize_text_field` once more before the script reads it;
      the lemma assumes that a second pass leaves the saved values as they
      are. */
  lemma SavedLocationReopensEditor(
    details: map<PostId, Location>, postId: PostId, form: SaveForm, host: Host, rt: Runtime)
    requires SaveAllowed(postId, form, host)
    requires Truthy(form.address) && Truthy(form.latitude) && Truthy(form.longitude)
    requires !EmptyString(host.sanitizeTextField(form.latitude.value))
    requires !EmptyString(host.sanitizeTextField(form.longitude.value))
    requires var lat := host.sanitizeTextField(form.latitude.value);
      host.sanitizeTextField(lat) == lat
    requires var lon := host.sanitizeTextField(form.longitude.value);
      host.sanitizeTextField(lon) == lon
    ensures var f := LoadedFields(SaveEffect(details, postId, form, host), postId);
      var e := Opened(host.sanitizeTextField(f.address), host.sanitizeTextField(f.latitude),
                      host.sanitizeTextField(f.longitude), rt);
      var lat := host.sanitizeTextField(form.latitude.value);
      var lon := host.sanitizeTextField(form.longitude.value);
      e.latitude == lat && e.longitude == lon
      && e.marker == Some(rt.toLatLng(lat, lon))
      && e.center == e.marker.value && e.zoom == StreetZoom
  {
    SaveThenLoad(details, postId, form, host);
  }

  /** A found address puts the first placemark's latitude and longitude, in
      that order, into the fields and under the marker, and keeps the
      address field. */
  lemma LookupFillsCoordinates(s: EditorState, placemarks: seq<Placemark>, rt: Runtime)
    requires |placemarks| > 0 && |placemarks[0].coordinates| >= 2
    ensures var c := ExtractCoordinates(Parsed(placemarks));
      var t := AfterSearchSuccess(s, c.latitude, c.longitude, rt);
      var point := placemarks[0].coordinates;
      t.latitude == point[1] && t.longitude == point[0]
      && t.marker == Some(rt.toLatLng(point[1], point[0]))
      && t.address == s.address
  {
    var c := ExtractCoordinates(Parsed(placemarks));
    assert [c.longitude, c.latitude][0] == placemarks[0].coordinates[..2][0];
    assert [c.longitude, c.latitude][1] == placemarks[0].coordinates[..2][1];
  }

  /** A failed lookup still reaches the success callback with two empty
      strings: the coordinate fields are blanked, so saving the form next
      deletes the post's record. */
  lemma FailedLookupDeletesOnSave(
    s: EditorState, rt: Runtime, details: map<PostId, Location>, postId: PostId,
    nonce: Option<string>, host: Host)
    requires SaveAllowed(postId, SubmittedForm(s, nonce), host)
    ensures var c := ExtractCoordinates(TransportError);
      var t := AfterSearchSuccess(s, c.latitude, c.longitude, rt);
      t.latitude == "" && t.longitude == "" && t.address == s.address
      && postId !in SaveEffect(details, postId, SubmittedForm(t, nonce), host)
  {
    var t := AfterSearchSuccess(s, "", "", rt);
    assert SubmittedForm(t, nonce).nonce == SubmittedForm(s, nonce).nonce;
  }

  /** After any sequence of events that ends with a clear, saving the form
      deletes the post's record. */
  lemma ClearedEditorDeletesOnSave(
    s: EditorState, events: seq<Event>, rt: Runtime, details: map<PostId, Location>,
    postId: PostId, nonce: Option<string>, host: Host)
    requires nonce.Some? && host.verifyNonce(nonce.value, NonceAction)
    requires !host.doingAutosave && host.currentUserCan(EditPostCapability, postId)
    ensures var t := Run(s, events + [ClearClick], rt);
      t == Opened("", "", "", rt)
      && postId !in SaveEffect(details, postId, SubmittedForm(t, nonce), host)
  {
    RunThenStep(s, events, ClearClick, rt);
    ClearResets(Run(s, events, rt), rt);
  }
}
