/**
 * The location picker: a search view with autocomplete and favourites, a map
 * view with a pin, and two dialogs that label and relabel favourites. Every
 * reply of the places API, of device storage and of the location service is
 * a parameter of the handler that awaits it; each handler runs as one step.
 */
module LocationPicker {
  import opened Options
  import opened JsString
  import opened Favourites

  /** The two mutually exclusive views. */
  datatype View = Search | Map

  /** One autocomplete suggestion. */
  datatype Prediction = Prediction(placeId: string, description: string)

  /** The search result waiting in the save dialog for a label. */
  datatype LocationToSave = LocationToSave(placeId: string, description: string)

  /** The value under the storage key: absent, a JSON array of favourites, or text that does not parse. */
  datatype Stored = Nothing | Json(locations: seq<SavedLocation>) | Corrupt

  /** What a handler does outside the picker: `onLocationSelect`, `onClose`, `Alert.alert`. */
  datatype Effect = Select(location: LocationData) | Close | Alert(title: string, message: string)

  /** The autocomplete endpoint's reply, or a transport failure. */
  datatype AutocompleteReply = AutocompleteReply(status: string, predictions: seq<Prediction>) | AutocompleteFailed

  /** The place-details endpoint's reply (`result.formatted_address`, `result.geometry.location`), or a transport failure. */
  datatype DetailsReply = DetailsReply(status: string, formattedAddress: string, lat: real, lng: real) | DetailsFailed

  /** The reverse-geocoding endpoint's reply (the `formatted_address` of each result), or a transport failure. */
  datatype GeocodeReply = GeocodeReply(status: string, addresses: seq<string>) | GeocodeFailed

  /** The foreground-permission request's reply, or a failure of the request itself. */
  datatype PermissionReply = PermissionReply(status: string) | PermissionFailed

  /** The current-position request's reply. */
  datatype PositionReply = Position(latitude: real, longitude: real) | PositionFailed

  /** The button the user presses in the delete confirmation. */
  datatype DeleteChoice = CancelDelete | ConfirmDelete

  const StorageKey := "@saved_locations"

  /** Queries shorter than this never reach the autocomplete endpoint. */
  const MinQueryLength := 3

  /** The centre of the map region before the user moves it. */
  const DefaultLatitude: real := 37.7749
  const DefaultLongitude: real := -122.4194

  /** The terminal success of every selection path: hand the place to the caller, then close. */
  function EmitAndClose(location: LocationData): (r: seq<Effect>)
    ensures |r| == 2 && r[0].Select? && r[0].location == location && r[1] == Close
  {
    [Select(location), Close]
  }

  /** The address a reverse-geocoding reply yields: the first result's, when the status is OK. */
  function GeocodedAddress(reply: GeocodeReply): (r: Option<string>)
    ensures r.Some? <==> reply.GeocodeReply? && reply.status == "OK" && |reply.addresses| > 0
    ensures r.Some? ==> r.value == reply.addresses[0]
  {
    if reply.GeocodeReply? && reply.status == "OK" && |reply.addresses| > 0 then Some(reply.addresses[0]) else None
  }

  const LimitReached := Alert("Limit Reached", "You can only save up to 3 favorite locations.")
  const SaveLabelExists := Alert("Label Exists", "A location with this label already exists. Please choose a different label.")
  const SaveFailed := Alert("Error", "An error occurred while saving the location.")
  const EditLabelExists := Alert("Label Exists", "A location with this label already exists.")

  class Picker {
    var view: View
    var searchQuery: string
    var predictions: seq<Prediction>
    var savedLocations: seq<SavedLocation>
    var isSaveModalVisible: bool
    var isEditModalVisible: bool
    var locationToSave: Option<LocationToSave>
    var locationToEdit: Option<SavedLocation>
    var isLoading: bool
    /** The centre of the map region (its zoom deltas are not modelled). */
    var latitude: real
    var longitude: real
    /** The query whose debounce timer is pending, if one is. */
    var scheduled: Option<string>
    /** Device storage under `StorageKey`. */
    var storage: Stored

    /** Storage and memory agree: storage holds exactly the in-memory list, or holds no list while that list is empty. */
    predicate InSync()
      reads this
    {
      storage == Json(savedLocations) || (!storage.Json? && savedLocations == [])
    }

    /** At most three favourites, and fewer while a search result waits for a label. */
    predicate Bounded()
      reads this
    {
      |savedLocations| <= MaxFavourites && (locationToSave.Some? ==> |savedLocations| < MaxFavourites)
    }

    /** A debounce timer runs only for the current query, and only when that query is long enough. */
    predicate TimerValid()
      reads this
    {
      scheduled.Some? ==> scheduled.value == searchQuery && |searchQuery| >= MinQueryLength
    }

    /** A query shorter than three characters shows no predictions. */
    predicate ShortQueryShowsNothing()
      reads this
    {
      |searchQuery| < MinQueryLength ==> predictions == []
    }

    /** The picker as mounted, over whatever storage holds. */
    constructor (stored: Stored)
      ensures view == Search && searchQuery == "" && predictions == [] && savedLocations == []
      ensures !isSaveModalVisible && !isEditModalVisible && locationToSave == None && locationToEdit == None
      ensures !isLoading && latitude == DefaultLatitude && longitude == DefaultLongitude
      ensures scheduled == None && storage == stored
      ensures TimerValid() && ShortQueryShowsNothing() && Bounded() && LabelsUnique(savedLocations)
    {
      view, searchQuery, predictions, savedLocations := Search, "", [], [];
      isSaveModalVisible, isEditModalVisible := false, false;
      locationToSave, locationToEdit := None, None;
      isLoading := false;
      latitude, longitude := DefaultLatitude, DefaultLongitude;
      scheduled := None;
      storage := stored;
    }

    /**
     * The picker became visible: reload the favourites, clear query and
     * predictions (cancelling any debounce timer), show the search view.
     * Nothing stored, a read that fails or text that does not parse leave the
     * favourites in memory as they were.
     */
    method Open(readFails: bool)
      modifies this`savedLocations, this`searchQuery, this`predictions, this`view, this`scheduled
      ensures savedLocations == (if !readFails && storage.Json? then storage.locations else old(savedLocations))
      ensures searchQuery == "" && predictions == [] && view == Search && scheduled == None
      ensures TimerValid() && ShortQueryShowsNothing()
      ensures old(InSync()) ==> InSync() && savedLocations == old(savedLocations)
      ensures !readFails && storage.Json? ==> InSync()
      ensures old(InSync()) && old(Bounded()) ==> Bounded()
    {
      if !readFails && storage.Json? {
        savedLocations := storage.locations;
      }
      searchQuery, predictions, view := "", [], Search;
      scheduled := None;
    }

    /**
     * The user typed: the query effect runs when the text changed. A query
     * shorter than three characters clears the predictions and schedules
     * nothing; a longer one replaces any pending timer by one for itself.
     */
    method SetQuery(q: string)
      modifies this`searchQuery, this`predictions, this`scheduled
      ensures searchQuery == q
      ensures q == old(searchQuery) ==> predictions == old(predictions) && scheduled == old(scheduled)
      ensures q != old(searchQuery) && |q| < MinQueryLength ==> predictions == [] && scheduled == None
      ensures q != old(searchQuery) && |q| >= MinQueryLength ==> predictions == old(predictions) && scheduled == Some(q)
      ensures old(TimerValid()) ==> TimerValid()
      ensures old(ShortQueryShowsNothing()) ==> ShortQueryShowsNothing()
    {
      if q != searchQuery {
        searchQuery := q;
        if |q| < MinQueryLength {
          predictions := [];
          scheduled := None;
        } else {
          scheduled := Some(q);
        }
      }
    }

    /**
     * The debounce timer fired: one autocomplete request for the query it was
     * set for. Only an OK reply replaces the predictions; any other reply or a
     * failed request leaves them as they were.
     */
    method DebounceFires(reply: AutocompleteReply) returns (request: Option<string>)
      modifies this`predictions, this`scheduled
      ensures request == old(scheduled) && scheduled == None
      ensures old(TimerValid()) && request.Some? ==> request.value == searchQuery && |searchQuery| >= MinQueryLength
      ensures predictions == (if request.Some? && reply.AutocompleteReply? && reply.status == "OK"
                              then reply.predictions else old(predictions))
      ensures TimerValid()
      ensures old(TimerValid()) && old(ShortQueryShowsNothing()) ==> ShortQueryShowsNothing()
    {
      request := scheduled;
      if scheduled.Some? && reply.AutocompleteReply? && reply.status == "OK" {
        predictions := reply.predictions;
      }
      scheduled := None;
    }

    /** "Choose on Map". */
    method ShowMap()
      modifies this`view
      ensures view == Map
    {
      view := Map;
    }

    /** The map view's back button. */
    method ShowSearch()
      modifies this`view
      ensures view == Search
    {
      view := Search;
    }

    /** The user finished moving the map. */
    method MoveRegion(lat: real, lng: real)
      modifies this`latitude, this`longitude
      ensures latitude == lat && longitude == lng
    {
      latitude, longitude := lat, lng;
    }

    /** A prediction was tapped: `reply` is the details of its place; on OK emit the place and close, otherwise alert. */
    method SelectPlace(reply: DetailsReply) returns (effects: seq<Effect>)
      ensures reply.DetailsReply? && reply.status == "OK" ==>
        effects == EmitAndClose(LocationData(reply.formattedAddress, reply.lat, reply.lng))
      ensures reply.DetailsReply? && reply.status != "OK" ==>
        effects == [Alert("Error", "Could not fetch location details.")]
      ensures reply.DetailsFailed? ==> effects == [Alert("Error", "An error occurred fetching location details.")]
    {
      if reply.DetailsFailed? {
        effects := [Alert("Error", "An error occurred fetching location details.")];
      } else if reply.status == "OK" {
        effects := EmitAndClose(LocationData(reply.formattedAddress, reply.lat, reply.lng));
      } else {
        effects := [Alert("Error", "Could not fetch location details.")];
      }
    }

    /** "Confirm Location": reverse-geocode the region centre; on success emit it with the first address and close. */
    method ConfirmLocation(reply: GeocodeReply) returns (effects: seq<Effect>)
      ensures GeocodedAddress(reply).Some? ==>
        effects == EmitAndClose(LocationData(reply.addresses[0], latitude, longitude))
      ensures reply.GeocodeReply? && GeocodedAddress(reply).None? ==>
        effects == [Alert("Error", "Could not determine address for this location.")]
      ensures reply.GeocodeFailed? ==> effects == [Alert("Error", "An error occurred fetching the address.")]
    {
      var address := GeocodedAddress(reply);
      if address.Some? {
        effects := EmitAndClose(LocationData(address.value, latitude, longitude));
      } else if reply.GeocodeFailed? {
        effects := [Alert("Error", "An error occurred fetching the address.")];
      } else {
        effects := [Alert("Error", "Could not determine address for this location.")];
      }
    }

    /**
     * "Use My Precise Location": ask for permission, read the position,
     * reverse-geocode it. Success emits and closes; a refusal or any failure
     * alerts and stays. The spinner is off afterwards in every case.
     */
    method PreciseLocation(permission: PermissionReply, position: PositionReply, reply: GeocodeReply)
      returns (effects: seq<Effect>)
      modifies this`isLoading
      ensures !isLoading
      ensures permission.PermissionReply? && permission.status != "granted" ==>
        effects == [Alert("Permission denied", "To use your precise location, please grant permission in your device settings.")]
      ensures permission.PermissionReply? && permission.status == "granted" && position.Position? && GeocodedAddress(reply).Some? ==>
        effects == EmitAndClose(LocationData(reply.addresses[0], position.latitude, position.longitude))
      ensures permission.PermissionFailed? || (permission.status == "granted" && (position.PositionFailed? || GeocodedAddress(reply).None?)) ==>
        effects == [Alert("Error", "Could not get your current location.")]
    {
      isLoading := true;
      if permission.PermissionFailed? {
        effects := [Alert("Error", "Could not get your current location.")];
      } else if permission.status != "granted" {
        effects := [Alert("Permission denied", "To use your precise location, please grant permission in your device settings.")];
      } else if position.PositionFailed? {
        effects := [Alert("Error", "Could not get your current location.")];
      } else {
        var address := GeocodedAddress(reply);
        if address.Some? {
          effects := EmitAndClose(LocationData(address.value, position.latitude, position.longitude));
        } else {
          effects := [Alert("Error", "Could not get your current location.")];
        }
      }
      isLoading := false;
    }

    /** A favourite was tapped: emit it as it is, without any request, and close. */
    method TapFavourite(k: nat) returns (effects: seq<Effect>)
      requires k < |savedLocations|
      ensures effects == EmitAndClose(savedLocations[k].Location())
    {
      effects := EmitAndClose(savedLocations[k].Location());
    }

    /** The star on a prediction: open the save dialog for it, unless three favourites exist already. */
    method OpenSaveModal(placeId: string, description: string) returns (effects: seq<Effect>)
      modifies this`locationToSave, this`isSaveModalVisible
      ensures |savedLocations| >= MaxFavourites ==>
        effects == [LimitReached] && locationToSave == old(locationToSave) && isSaveModalVisible == old(isSaveModalVisible)
      ensures |savedLocations| < MaxFavourites ==>
        effects == [] && locationToSave == Some(LocationToSave(placeId, description)) && isSaveModalVisible
      ensures old(Bounded()) ==> Bounded()
    {
      if |savedLocations| >= MaxFavourites {
        effects := [LimitReached];
      } else {
        locationToSave := Some(LocationToSave(placeId, description));
        isSaveModalVisible := true;
        effects := [];
      }
    }

    /** The save dialog's own close: the pending search result stays. */
    method CloseSaveModal()
      modifies this`isSaveModalVisible
      ensures !isSaveModalVisible
    {
      isSaveModalVisible := false;
    }

    /** A save of `name` goes all the way through: something pending, the label free, details OK, the write done. */
    predicate SaveGoesThrough(name: string, reply: DetailsReply, writeOk: bool)
      reads this
    {
      locationToSave.Some? && !LabelTaken(savedLocations, name) && reply.DetailsReply? && reply.status == "OK" && writeOk
    }

    /**
     * The save dialog submitted `name`. With nothing pending it does nothing;
     * a label taken ignoring case is refused; otherwise the details of the
     * pending result give the coordinates, the entry is appended, the whole
     * list written, and the dialog closed. A failed request or write alerts
     * and changes nothing.
     */
    method SaveLabeledLocation(name: string, reply: DetailsReply, writeOk: bool) returns (effects: seq<Effect>)
      modifies this`savedLocations, this`storage, this`isSaveModalVisible, this`locationToSave
      ensures old(SaveGoesThrough(name, reply, writeOk)) ==>
        && savedLocations == old(savedLocations) + [NewFavourite(name, old(locationToSave).value.description, reply.lat, reply.lng)]
        && storage == Json(savedLocations)
        && !isSaveModalVisible && locationToSave == None && effects == []
      ensures !old(SaveGoesThrough(name, reply, writeOk)) ==>
        && savedLocations == old(savedLocations) && storage == old(storage)
        && isSaveModalVisible == old(isSaveModalVisible) && locationToSave == old(locationToSave)
        && effects == (if old(locationToSave).None? then []
                       else if LabelTaken(savedLocations, name) then [SaveLabelExists]
                       else [SaveFailed])
      ensures old(InSync()) ==> InSync()
      ensures old(Bounded()) ==> Bounded()
      ensures old(LabelsUnique(savedLocations)) ==> LabelsUnique(savedLocations)
    {
      if locationToSave.None? {
        return [];
      }
      if FindIgnoringCase(savedLocations, name).Some? {
        return [SaveLabelExists];
      }
      if reply.DetailsReply? && reply.status == "OK" && writeOk {
        var entry := NewFavourite(name, locationToSave.value.description, reply.lat, reply.lng);
        if LabelsUnique(savedLocations) {
          AppendKeepsUnique(savedLocations, entry);
        }
        var updated := savedLocations + [entry];
        storage := Json(updated);
        savedLocations := updated;
        isSaveModalVisible := false;
        locationToSave := None;
        effects := [];
      } else {
        effects := [SaveFailed];
      }
    }

    /**
     * The delete confirmation was answered. On "Delete" every favourite whose
     * label is exactly `name` goes, and the rest is written and kept. A failed
     * write rejects the handler before the state is set.
     */
    method DeleteLocation(name: string, choice: DeleteChoice, writeOk: bool)
      modifies this`savedLocations, this`storage
      ensures choice == ConfirmDelete && writeOk ==>
        savedLocations == RemoveLabel(old(savedLocations), name) && storage == Json(savedLocations)
      ensures !(choice == ConfirmDelete && writeOk) ==>
        savedLocations == old(savedLocations) && storage == old(storage)
      ensures old(InSync()) ==> InSync()
      ensures old(Bounded()) ==> Bounded()
      ensures old(LabelsUnique(savedLocations)) ==> LabelsUnique(savedLocations)
    {
      if choice == ConfirmDelete && writeOk {
        if LabelsUnique(savedLocations) {
          RemoveKeepsUnique(savedLocations, name);
        }
        var updated := RemoveLabel(savedLocations, name);
        storage := Json(updated);
        savedLocations := updated;
      }
    }

    /** The edit icon on a favourite: open the edit dialog for a copy of it. */
    method OpenEditModal(location: SavedLocation)
      modifies this`locationToEdit, this`isEditModalVisible
      ensures locationToEdit == Some(location) && isEditModalVisible
    {
      locationToEdit := Some(location);
      isEditModalVisible := true;
    }

    /** The edit dialog's own close: the copy being edited stays. */
    method CloseEditModal()
      modifies this`isEditModalVisible
      ensures !isEditModalVisible
    {
      isEditModalVisible := false;
    }

    /**
     * The edit dialog submitted `newLabel`. With nothing being edited it does
     * nothing. It is refused when the label changes (ignoring case) to one
     * another favourite carries; otherwise every favourite labelled exactly
     * like the edited one is relabelled, the list written, the dialog closed.
     * A failed write rejects the handler before the state is set.
     */
    method EditLabel(newLabel: string, writeOk: bool) returns (effects: seq<Effect>)
      modifies this`savedLocations, this`storage, this`isEditModalVisible, this`locationToEdit
      ensures old(locationToEdit).None? ==>
        effects == [] && savedLocations == old(savedLocations) && storage == old(storage)
        && isEditModalVisible == old(isEditModalVisible) && locationToEdit == old(locationToEdit)
      ensures old(locationToEdit).Some? && !RenameAllowed(old(savedLocations), old(locationToEdit).value.name, newLabel) ==>
        effects == [EditLabelExists] && savedLocations == old(savedLocations) && storage == old(storage)
        && isEditModalVisible == old(isEditModalVisible) && locationToEdit == old(locationToEdit)
      ensures old(locationToEdit).Some? && RenameAllowed(old(savedLocations), old(locationToEdit).value.name, newLabel) ==>
        effects == [] &&
        if writeOk then
          && savedLocations == RenameLabel(old(savedLocations), old(locationToEdit).value.name, newLabel)
          && storage == Json(savedLocations) && !isEditModalVisible && locationToEdit == None
        else
          && savedLocations == old(savedLocations) && storage == old(storage)
          && isEditModalVisible == old(isEditModalVisible) && locationToEdit == old(locationToEdit)
      ensures |savedLocations| == |old(savedLocations)|
      ensures old(InSync()) ==> InSync()
      ensures old(Bounded()) ==> Bounded()
      ensures old(LabelsUnique(savedLocations)) ==> LabelsUnique(savedLocations)
    {
      if locationToEdit.None? {
        return [];
      }
      var oldLabel := locationToEdit.value.name;
      if !EqualsIgnoreCase(newLabel, oldLabel) && LabelTaken(savedLocations, newLabel) {
        return [EditLabelExists];
      }
      effects := [];
      if writeOk {
        if LabelsUnique(savedLocations) {
          RenameKeepsUnique(savedLocations, oldLabel, newLabel);
        }
        var updated := RenameLabel(savedLocations, oldLabel, newLabel);
        storage := Json(updated);
        savedLocations := updated;
        isEditModalVisible := false;
        locationToEdit := None;
      }
    }
  }
}
