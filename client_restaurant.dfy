/** The restaurant management page of client/src/components/resturant.js:
    the checks made before a restaurant is saved, in particular the
    case-insensitive duplicate-name check, and the form state around it. */
module ClientRestaurant {
  import opened Domain
  import opened Text

  /** A restaurant as listed on the page. */
  datatype Listed = Listed(
    id: Id,
    name: string,
    address: Option<string>,
    phoneNumber: Option<string>,
    description: Option<string>)

  datatype RestaurantForm = RestaurantForm(name: string, address: string, phoneNumber: string, description: string)

  /** The multipart request a save sends: an update of the edited restaurant
      or a new one; the image is attached only when one was picked. */
  datatype SaveRequest =
    | PutRestaurant(id: Id, form: RestaurantForm, image: Option<string>)
    | PostRestaurant(form: RestaurantForm, image: Option<string>)

  datatype Snack = Snack(severity: string, message: string)

  const EmptyForm: RestaurantForm := RestaurantForm("", "", "", "")

  const NoToken: string := "No token provided"
  const FillAll: string := "Please fill in all fields!"
  const NameExists: string := "Restaurant name already exists!"
  const NeedImage: string := "Please select an image for the restaurant!"

  /** `restaurants.some(r => r.name.toLowerCase() === name.trim().toLowerCase()
      && r._id !== editingId)`, scanning from the front. */
  function NameTaken(restaurants: seq<Listed>, name: string, editingId: Option<Id>): bool
  {
    if restaurants == [] then false
    else
      (Lower(restaurants[0].name) == Lower(Trim(name)) && Some(restaurants[0].id) != editingId)
      || NameTaken(restaurants[1..], name, editingId)
  }

  /** A name is taken exactly when some restaurant other than the edited one
      has it, ignoring letter case and the spaces around the typed name. */
  lemma {:induction false} NameTakenSpec(restaurants: seq<Listed>, name: string, editingId: Option<Id>)
    ensures NameTaken(restaurants, name, editingId) <==>
      exists i :: 0 <= i < |restaurants| && Lower(restaurants[i].name) == Lower(Trim(name))
        && Some(restaurants[i].id) != editingId
  {
    if restaurants != [] {
      NameTakenSpec(restaurants[1..], name, editingId);
      if exists i :: 0 <= i < |restaurants| && Lower(restaurants[i].name) == Lower(Trim(name))
          && Some(restaurants[i].id) != editingId {
        var i :| 0 <= i < |restaurants| && Lower(restaurants[i].name) == Lower(Trim(name))
          && Some(restaurants[i].id) != editingId;
        if i > 0 {
          assert restaurants[1..][i - 1] == restaurants[i];
        }
      }
      if NameTaken(restaurants[1..], name, editingId) {
        var i :| 0 <= i < |restaurants[1..]| && Lower(restaurants[1..][i].name) == Lower(Trim(name))
          && Some(restaurants[1..][i].id) != editingId;
        assert restaurants[i + 1] == restaurants[1..][i];
      }
    }
  }

  /** The restaurant being edited never clashes with itself: when every
      other listed restaurant has a different name, case ignored, the typed
      name is free. */
  lemma EditedNeverClashesWithItself(restaurants: seq<Listed>, name: string, id: Id)
    requires forall i :: 0 <= i < |restaurants| && restaurants[i].id != id ==>
      Lower(restaurants[i].name) != Lower(Trim(name))
    ensures !NameTaken(restaurants, name, Some(id))
  {
    NameTakenSpec(restaurants, name, Some(id));
  }

  /** On a new restaurant no listed name is excluded: matching any of them,
      in any letter case, refuses it. */
  lemma NewNameClash(restaurants: seq<Listed>, name: string, i: nat)
    requires i < |restaurants| && Lower(restaurants[i].name) == Lower(Trim(name))
    ensures NameTaken(restaurants, name, None)
  {
    NameTakenSpec(restaurants, name, None);
  }

  /** A JavaScript string value is truthy when present and not empty. */
  predicate Truthy(s: Option<string>)
  {
    s.Some? && s.value != ""
  }

  /** The checks of `handleSubmit`, in order: the message of the first that
      fails, or none when the save request is sent. */
  function SubmitError(token: Option<string>, form: RestaurantForm, restaurants: seq<Listed>,
                       editingId: Option<Id>, image: Option<string>): (r: Option<string>)
    ensures !Truthy(token) ==> r == Some(NoToken)
    ensures r.None? <==>
      && Truthy(token)
      && form.name != "" && form.address != "" && form.phoneNumber != "" && form.description != ""
      && !NameTaken(restaurants, form.name, editingId)
      && (editingId.None? ==> image.Some?)
    ensures r == Some(NeedImage) ==> editingId.None?
    ensures (&& Truthy(token)
             && (form.name == "" || form.address == "" || form.phoneNumber == "" || form.description == ""))
      ==> r == Some(FillAll)
    ensures (&& Truthy(token)
             && form.name != "" && form.address != "" && form.phoneNumber != "" && form.description != ""
             && NameTaken(restaurants, form.name, editingId))
      ==> r == Some(NameExists)
    ensures (&& Truthy(token)
             && form.name != "" && form.address != "" && form.phoneNumber != "" && form.description != ""
             && !NameTaken(restaurants, form.name, editingId) && editingId.None? && image.None?)
      ==> r == Some(NeedImage)
  {
    if !Truthy(token) then Some(NoToken)
    else if form.name == "" || form.address == "" || form.phoneNumber == "" || form.description == "" then Some(FillAll)
    else if NameTaken(restaurants, form.name, editingId) then Some(NameExists)
    else if editingId.None? && image.None? then Some(NeedImage)
    else None
  }

  /** `x || ""`. */
  function OrEmpty(x: Option<string>): (r: string)
    ensures x.Some? ==> r == x.value
    ensures x.None? ==> r == ""
  {
    if x.Some? then x.value else ""
  }

  /** The state of the restaurant page. */
  class RestaurantPage {
    var token: Option<string>
    var restaurants: seq<Listed>
    var form: RestaurantForm
    var image: Option<string>
    var editingId: Option<Id>
    var loading: bool
    var snack: Option<Snack>

    constructor (token: Option<string>, restaurants: seq<Listed>)
      ensures this.token == token && this.restaurants == restaurants
      ensures form == EmptyForm && image.None? && editingId.None? && !loading && snack.None?
    {
      this.token := token;
      this.restaurants := restaurants;
      form := EmptyForm;
      image := None;
      editingId := None;
      loading := false;
      snack := None;
    }

    /** `handleEdit`: load the restaurant into the form and remember its id. */
    method HandleEdit(r: Listed)
      modifies this`form, this`editingId
      ensures form == RestaurantForm(r.name, OrEmpty(r.address), OrEmpty(r.phoneNumber), OrEmpty(r.description))
      ensures editingId == Some(r.id)
    {
      form := RestaurantForm(r.name, OrEmpty(r.address), OrEmpty(r.phoneNumber), OrEmpty(r.description));
      editingId := Some(r.id);
    }

    /** `handleSubmit`: a failed check only reports it; otherwise the form is
        sent as an update of the edited restaurant or as a new one, and once
        the server accepts it the form and image are cleared, and so is the
        edited id after an update. Whether the server accepts is `ok`. */
    method HandleSubmit(ok: bool) returns (sent: Option<SaveRequest>)
      modifies this`form, this`image, this`editingId, this`loading, this`snack
      ensures var err := SubmitError(token, old(form), restaurants, old(editingId), old(image));
        && (err.Some? ==>
              sent.None? && snack == Some(Snack("error", err.value)) && loading == old(loading)
              && form == old(form) && image == old(image) && editingId == old(editingId))
        && (err.None? ==>
              && sent.Some? && !loading
              && (old(editingId).Some? ==> sent == Some(PutRestaurant(old(editingId).value, old(form), old(image))))
              && (old(editingId).None? ==> sent == Some(PostRestaurant(old(form), old(image))))
              && (ok ==> form == EmptyForm && image.None? && editingId.None?)
              && (ok && old(editingId).Some? ==> snack == Some(Snack("success", "Restaurant updated successfully!")))
              && (ok && old(editingId).None? ==> snack == Some(Snack("success", "Restaurant added successfully!")))
              && (!ok ==> form == old(form) && image == old(image) && editingId == old(editingId)
                          && snack == Some(Snack("error", "Error saving restaurant"))))
    {
      var err := SubmitError(token, form, restaurants, editingId, image);
      if err.Some? {
        snack := Some(Snack("error", err.value));
        return None;
      }
      loading := true;
      if editingId.Some? {
        sent := Some(PutRestaurant(editingId.value, form, image));
      } else {
        sent := Some(PostRestaurant(form, image));
      }
      if ok {
        if editingId.Some? {
          editingId := None;
          snack := Some(Snack("success", "Restaurant updated successfully!"));
        } else {
          snack := Some(Snack("success", "Restaurant added successfully!"));
        }
        form := EmptyForm;
        image := None;
      } else {
        snack := Some(Snack("error", "Error saving restaurant"));
      }
      loading := false;
    }
  }
}
