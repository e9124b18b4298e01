/**
 * The registry screen of src/pages/Index.tsx: the list of vehicles, the vehicle
 * being edited and whether the form is open, with the handlers that add, edit
 * and delete vehicles and open and close the form.
 */
module IndexPage {

  import opened Wrappers
  import opened VehicleTypes
  import opened VehicleFormComponent
  import opened JsText

  // ---------------------------------------------------------------- list operations

  /** `vehicles.map(v => v.id === id ? { ...data, id } : v)` */
  function ReplaceById(vehicles: seq<Vehicle>, id: string, data: VehicleData): (r: seq<Vehicle>)
    ensures |r| == |vehicles|
    ensures forall i :: 0 <= i < |vehicles| && vehicles[i].id == id ==> r[i] == WithId(data, id)
    ensures forall i :: 0 <= i < |vehicles| && vehicles[i].id != id ==> r[i] == vehicles[i]
  {
    if vehicles == [] then []
    else
      [if vehicles[0].id == id then WithId(data, id) else vehicles[0]]
      + ReplaceById(vehicles[1..], id, data)
  }

  /** `vehicles.filter(v => v.id !== id)` */
  function RemoveById(vehicles: seq<Vehicle>, id: string): (r: seq<Vehicle>)
    ensures |r| <= |vehicles|
    ensures forall v :: v in r <==> v in vehicles && v.id != id
  {
    if vehicles == [] then []
    else
      (if vehicles[0].id != id then [vehicles[0]] else [])
      + RemoveById(vehicles[1..], id)
  }

  /** The ids of a list, in order. */
  function Ids(vehicles: seq<Vehicle>): (ids: seq<string>)
    ensures |ids| == |vehicles|
    ensures forall i :: 0 <= i < |vehicles| ==> ids[i] == vehicles[i].id
  {
    if vehicles == [] then [] else [vehicles[0].id] + Ids(vehicles[1..])
  }

  /** An edit keeps every id where it was: the list's ids are unchanged. */
  lemma ReplaceByIdKeepsIds(vehicles: seq<Vehicle>, id: string, data: VehicleData)
    ensures Ids(ReplaceById(vehicles, id, data)) == Ids(vehicles)
  {
  }

  /** Repeating an edit with the same data changes nothing more. */
  lemma ReplaceByIdIdempotent(vehicles: seq<Vehicle>, id: string, data: VehicleData)
    ensures ReplaceById(ReplaceById(vehicles, id, data), id, data) == ReplaceById(vehicles, id, data)
  {
  }

  /** An edit of an id the list does not hold changes nothing. */
  lemma {:induction false} ReplaceByIdAbsent(vehicles: seq<Vehicle>, id: string, data: VehicleData)
    requires id !in Ids(vehicles)
    ensures ReplaceById(vehicles, id, data) == vehicles
  {
    if vehicles != [] {
      assert vehicles[0].id == Ids(vehicles)[0];
      assert Ids(vehicles[1..]) == Ids(vehicles)[1..];
      ReplaceByIdAbsent(vehicles[1..], id, data);
    }
  }

  /** Deleting distributes over concatenation, so the survivors keep their order. */
  lemma {:induction false} RemoveByIdAppend(a: seq<Vehicle>, b: seq<Vehicle>, id: string)
    ensures RemoveById(a + b, id) == RemoveById(a, id) + RemoveById(b, id)
  {
    if a == [] {
      assert a + b == b;
    } else {
      assert (a + b)[1..] == a[1..] + b;
      RemoveByIdAppend(a[1..], b, id);
    }
  }

  /** Deleting a single vehicle keeps it exactly when its id differs. */
  lemma RemoveByIdSingleton(v: Vehicle, id: string)
    ensures RemoveById([v], id) == if v.id == id then [] else [v]
  {
    assert [v][1..] == [];
  }

  /** After a delete no vehicle with that id remains. */
  lemma RemoveByIdLeavesNone(vehicles: seq<Vehicle>, id: string)
    ensures id !in Ids(RemoveById(vehicles, id))
  {
  }

  /** Deleting an id that is not in the list changes nothing. */
  lemma {:induction false} RemoveByIdAbsent(vehicles: seq<Vehicle>, id: string)
    requires id !in Ids(vehicles)
    ensures RemoveById(vehicles, id) == vehicles
  {
    if vehicles != [] {
      assert vehicles[0].id == Ids(vehicles)[0];
      assert Ids(vehicles[1..]) == Ids(vehicles)[1..];
      RemoveByIdAbsent(vehicles[1..], id);
    }
  }

  /** Deleting twice is deleting once. */
  lemma RemoveByIdIdempotent(vehicles: seq<Vehicle>, id: string)
    ensures RemoveById(RemoveById(vehicles, id), id) == RemoveById(vehicles, id)
  {
    RemoveByIdLeavesNone(vehicles, id);
    RemoveByIdAbsent(RemoveById(vehicles, id), id);
  }

  /** Adding a vehicle under a fresh id and deleting that id gives back the list. */
  lemma AddThenRemove(vehicles: seq<Vehicle>, v: Vehicle)
    requires v.id !in Ids(vehicles)
    ensures RemoveById(vehicles + [v], v.id) == vehicles
  {
    RemoveByIdAppend(vehicles, [v], v.id);
    RemoveByIdAbsent(vehicles, v.id);
    RemoveByIdSingleton(v, v.id);
  }

  /** Deleting an id after editing it is the same as deleting it straight away. */
  lemma {:induction false} RemoveAfterReplace(vehicles: seq<Vehicle>, id: string, data: VehicleData)
    ensures RemoveById(ReplaceById(vehicles, id, data), id) == RemoveById(vehicles, id)
  {
    if vehicles != [] {
      var r := ReplaceById(vehicles, id, data);
      assert r[1..] == ReplaceById(vehicles[1..], id, data);
      RemoveAfterReplace(vehicles[1..], id, data);
    }
  }

  // ---------------------------------------------------------------- the registry state

  /** Every stored vehicle holds an upper-case plate the validator accepts and a fuel level in [0, 100]. */
  predicate AllAccepted(vehicles: seq<Vehicle>) {
    forall i :: 0 <= i < |vehicles| ==>
      IsAcceptedData(VehicleData(vehicles[i].licensePlate, vehicles[i].fuelLevel))
  }

  /** The three state variables of the page. */
  class Index {
    var vehicles: seq<Vehicle>
    var editingVehicle: Option<Vehicle>
    var showForm: bool

    /** A vehicle is only ever being edited while the form is open. */
    ghost predicate FormInvariant()
      reads this
    {
      editingVehicle.Some? ==> showForm
    }

    constructor ()
      ensures vehicles == [] && editingVehicle == None && !showForm
      ensures FormInvariant()
    {
      vehicles := [];
      editingVehicle := None;
      showForm := false;
    }

    /** `handleAddVehicle`: append the submission under the given id and close the form. */
    method HandleAddVehicle(data: VehicleData, id: string)
      modifies this
      ensures vehicles == old(vehicles) + [WithId(data, id)]
      ensures !showForm && editingVehicle == old(editingVehicle)
      ensures old(AllAccepted(vehicles)) && IsAcceptedData(data) ==> AllAccepted(vehicles)
    {
      vehicles := vehicles + [WithId(data, id)];
      showForm := false;
    }

    /**
     * `handleEditVehicle`: with a vehicle being edited, replace every vehicle
     * with its id by the submission under that id, then close the form;
     * otherwise do nothing.
     */
    method HandleEditVehicle(data: VehicleData)
      modifies this
      ensures old(editingVehicle).Some? ==>
        vehicles == ReplaceById(old(vehicles), old(editingVehicle).value.id, data)
        && editingVehicle == None && !showForm
      ensures old(editingVehicle).None? ==>
        vehicles == old(vehicles) && editingVehicle == None && showForm == old(showForm)
      ensures old(AllAccepted(vehicles)) && IsAcceptedData(data) ==> AllAccepted(vehicles)
      ensures FormInvariant()
    {
      if editingVehicle.Some? {
        var id := editingVehicle.value.id;
        vehicles := ReplaceById(vehicles, id, data);
        editingVehicle := None;
        showForm := false;
      }
    }

    /** `handleDeleteVehicle`: drop every vehicle with the id. */
    method HandleDeleteVehicle(id: string)
      modifies this
      ensures vehicles == RemoveById(old(vehicles), id)
      ensures editingVehicle == old(editingVehicle) && showForm == old(showForm)
      ensures old(AllAccepted(vehicles)) ==> AllAccepted(vehicles)
    {
      vehicles := RemoveById(vehicles, id);
    }

    /** `openEditForm`: edit this vehicle in an open form. */
    method OpenEditForm(vehicle: Vehicle)
      modifies this
      ensures editingVehicle == Some(vehicle) && showForm
      ensures vehicles == old(vehicles)
      ensures FormInvariant()
    {
      editingVehicle := Some(vehicle);
      showForm := true;
    }

    /** The add buttons: open the form, leaving the rest as it is. */
    method OpenAddForm()
      modifies this
      ensures showForm
      ensures vehicles == old(vehicles) && editingVehicle == old(editingVehicle)
      ensures FormInvariant()
    {
      showForm := true;
    }

    /** `closeForm`: close the form and stop editing. */
    method CloseForm()
      modifies this
      ensures !showForm && editingVehicle == None
      ensures vehicles == old(vehicles)
      ensures FormInvariant()
    {
      showForm := false;
      editingVehicle := None;
    }

    /**
     * The form's submit callback: to the edit handler while a vehicle is being
     * edited, to the add handler otherwise; either way the form ends closed and
     * no vehicle is being edited.
     */
    method HandleFormSubmit(data: VehicleData, id: string)
      modifies this
      ensures old(editingVehicle).Some? ==>
        vehicles == ReplaceById(old(vehicles), old(editingVehicle).value.id, data)
      ensures old(editingVehicle).None? ==> vehicles == old(vehicles) + [WithId(data, id)]
      ensures !showForm && editingVehicle == None
      ensures old(AllAccepted(vehicles)) && IsAcceptedData(data) ==> AllAccepted(vehicles)
      ensures FormInvariant()
    {
      if editingVehicle.Some? {
        HandleEditVehicle(data);
      } else {
        HandleAddVehicle(data, id);
      }
    }

    /**
     * One press of the form's submit button: the form validates its fields and,
     * only when they pass, the submission is routed to add or edit. A refused
     * submission leaves the registry as it was, so the registry only ever holds
     * accepted records.
     */
    method SubmitForm(form: VehicleForm, id: string) returns (submitted: Option<VehicleData>)
      modifies this, form
      ensures submitted.None? ==>
        vehicles == old(vehicles) && editingVehicle == old(editingVehicle) && showForm == old(showForm)
      ensures submitted.Some? && old(editingVehicle).Some? ==>
        vehicles == ReplaceById(old(vehicles), old(editingVehicle).value.id, submitted.value)
      ensures submitted.Some? && old(editingVehicle).None? ==>
        vehicles == old(vehicles) + [WithId(submitted.value, id)]
      ensures submitted.Some? ==>
        submitted.value.licensePlate == ToUpperCase(old(form.licensePlate))
        && ParseFloat(old(form.fuelLevel)) == Finite(submitted.value.fuelLevel)
        && !showForm && editingVehicle == None
      ensures form.errors == FormErrors(LicensePlateError(old(form.licensePlate)), FuelLevelError(old(form.fuelLevel)))
      ensures submitted.Some? <==> form.errors.IsEmpty()
      ensures submitted.Some? ==> form.licensePlate == "" && form.fuelLevel == ""
      ensures submitted.None? ==> form.licensePlate == old(form.licensePlate) && form.fuelLevel == old(form.fuelLevel)
      ensures old(AllAccepted(vehicles)) ==> AllAccepted(vehicles)
      ensures old(FormInvariant()) ==> FormInvariant()
    {
      submitted := form.HandleSubmit();
      if submitted.Some? {
        HandleFormSubmit(submitted.value, id);
      }
    }
  }
}
