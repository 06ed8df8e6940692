/*
 * The master-keys view (MASTER only): the level and target labels of the
 * table, the target a key is created or edited with, the refusal of a
 * HOUSE or DEVICE key without a target, the state toggle and the delete
 * guard.
 */
module Masterkeys {
  import opened JsValues
  import opened Seqs
  import opened Strings
  import Auth
  import Houses
  import Devices

  const Global := "GLOBAL"
  const House := "HOUSE"
  const Device := "DEVICE"
  const Activa := "ACTIVA"
  const Inactiva := "INACTIVA"
  /** What the table shows for a key without a target. */
  const NoTarget := "—"

  /** A master key row: id, level, level target and state. */
  datatype Masterkey = Masterkey(id: string, level: string, target: string, state: string)

  /** The body of an edit request; the id travels separately. */
  datatype MasterkeyUpdate = MasterkeyUpdate(level: string, target: string, state: string)

  // ---------------------------------------------------------------------
  // Labels

  /** `getLevelLabel`: the three known levels get their display label,
      any other level is shown as it is. */
  function LevelLabel(level: string): (r: string)
    ensures level == Global ==> r == "🌐 Global"
    ensures level == House ==> r == "🏠 Casa"
    ensures level == Device ==> r == "📟 Dispositivo"
    ensures level !in {Global, House, Device} ==> r == level
  {
    match level
    case "GLOBAL" => "🌐 Global"
    case "HOUSE" => "🏠 Casa"
    case "DEVICE" => "📟 Dispositivo"
    case _ => level
  }

  /** The three known levels are told apart by their labels. */
  lemma LevelLabelsDistinct(a: string, b: string)
    requires a in {Global, House, Device} && b in {Global, House, Device}
    ensures LevelLabel(a) == LevelLabel(b) ==> a == b
  {
  }

  /** An unknown level whose text is a known label is shown like the known
      level: the labels alone do not identify the level. */
  lemma LevelLabelAmbiguous()
    ensures LevelLabel("🌐 Global") == LevelLabel(Global)
  {
  }

  function HouseIs(id: string): Houses.House -> bool {
    (h: Houses.House) => h.houseId == id
  }

  function DeviceIs(id: string): Devices.RawDevice -> bool {
    (d: Devices.RawDevice) => d.esp32Id == id
  }

  /** `${x || ''}` for a loosely typed cell. */
  function CellText(v: Js): (r: string)
    ensures Truthy(v) <==> r != ""
  {
    if Truthy(v) then
      Houses.TruthyText(v);
      ToStr(v)
    else ""
  }

  /** The target, or the dash when it is empty. */
  function TargetOrDash(target: string): (r: string)
    ensures r != ""
    ensures target != "" ==> r == target
  {
    OrElse(target, NoTarget)
  }

  /** `getTargetLabel`: the dash for a GLOBAL key; for a HOUSE or DEVICE
      key whose target is a known house or device, the target followed by
      the street or location in parentheses; otherwise the target itself,
      or the dash when it is empty. */
  function TargetLabel(mk: Masterkey, houses: seq<Houses.House>, devices: seq<Devices.RawDevice>): (r: string)
    ensures mk.level == Global ==> r == NoTarget
    ensures mk.level == House && (forall j :: 0 <= j < |houses| ==> houses[j].houseId != mk.target) ==>
              r == TargetOrDash(mk.target)
    ensures mk.level !in {Global, House, Device} ==> r == TargetOrDash(mk.target)
  {
    if mk.level == Global then NoTarget
    else if mk.level == House then
      match FindFirst(houses, HouseIs(mk.target))
      case Some(h) => mk.target + " (" + CellText(h.street) + ")"
      case None => TargetOrDash(mk.target)
    else if mk.level == Device then
      match FindFirst(devices, DeviceIs(mk.target))
      case Some(d) => mk.target + " (" + d.location + ")"
      case None => TargetOrDash(mk.target)
    else TargetOrDash(mk.target)
  }

  /** The target cell is never blank: a GLOBAL key shows the dash, any
      other key starts with its target when it has one and is the dash
      when it has none and names nothing known. */
  lemma TargetLabelShape(mk: Masterkey, houses: seq<Houses.House>, devices: seq<Devices.RawDevice>)
    ensures TargetLabel(mk, houses, devices) != ""
    ensures mk.level == Global ==> TargetLabel(mk, houses, devices) == NoTarget
    ensures mk.level != Global ==>
              (mk.target <= TargetLabel(mk, houses, devices)
               || (mk.target == "" && TargetLabel(mk, houses, devices) == NoTarget))
  {
  }

  /** A HOUSE key whose target is a listed house names the first house
      with that id, street in parentheses. */
  lemma HouseTargetNamed(mk: Masterkey, houses: seq<Houses.House>, devices: seq<Devices.RawDevice>, i: nat)
    requires mk.level == House
    requires i < |houses| && houses[i].houseId == mk.target
    requires forall j :: 0 <= j < i ==> houses[j].houseId != mk.target
    ensures TargetLabel(mk, houses, devices) == mk.target + " (" + CellText(houses[i].street) + ")"
  {
    var found := FindFirst(houses, HouseIs(mk.target));
    assert HouseIs(mk.target)(houses[i]);
    var k :| 0 <= k < |houses| && houses[k] == found.value && HouseIs(mk.target)(houses[k])
             && forall j :: 0 <= j < k ==> !HouseIs(mk.target)(houses[j]);
    assert k == i;
  }

  /** A DEVICE key whose target is a listed device names the first device
      with that id, location in parentheses. */
  lemma DeviceTargetNamed(mk: Masterkey, houses: seq<Houses.House>, devices: seq<Devices.RawDevice>, i: nat)
    requires mk.level == Device
    requires i < |devices| && devices[i].esp32Id == mk.target
    requires forall j :: 0 <= j < i ==> devices[j].esp32Id != mk.target
    ensures TargetLabel(mk, houses, devices) == mk.target + " (" + devices[i].location + ")"
  {
    var found := FindFirst(devices, DeviceIs(mk.target));
    assert DeviceIs(mk.target)(devices[i]);
    var k :| 0 <= k < |devices| && devices[k] == found.value && DeviceIs(mk.target)(devices[k])
             && forall j :: 0 <= j < k ==> !DeviceIs(mk.target)(devices[j]);
    assert k == i;
  }

  /** A DEVICE key whose target is no listed device shows only its target
      (or the dash). */
  lemma UnknownDeviceTarget(mk: Masterkey, houses: seq<Houses.House>, devices: seq<Devices.RawDevice>)
    requires mk.level == Device
    requires forall j :: 0 <= j < |devices| ==> devices[j].esp32Id != mk.target
    ensures TargetLabel(mk, houses, devices) == TargetOrDash(mk.target)
  {
    assert forall j :: 0 <= j < |devices| ==> !DeviceIs(mk.target)(devices[j]);
  }

  // ---------------------------------------------------------------------
  // Create, edit, toggle, delete

  /** A key whose level needs a target has one, and a GLOBAL key has none. */
  predicate WellTargeted(level: string, target: string) {
    (level == House || level == Device ==> target != "") && (level == Global ==> target == "")
  }

  /** The target chosen for a level: the house selection for HOUSE, the
      device selection for DEVICE, nothing otherwise. */
  method SelectTarget(level: string, houseSel: string, deviceSel: string) returns (levelTarget: string)
    ensures level == House ==> levelTarget == houseSel
    ensures level == Device ==> levelTarget == deviceSel
    ensures level != House && level != Device ==> levelTarget == ""
  {
    levelTarget := "";
    if level == House {
      levelTarget := houseSel;
    }
    if level == Device {
      levelTarget := deviceSel;
    }
  }

  /** `createMasterkey`: no request for a HOUSE or DEVICE key whose
      selection is empty; otherwise the request carries the trimmed id,
      the level, the selected target and the state. Every key it sends is
      well targeted. */
  method CreateMasterkey(idText: string, level: string, houseSel: string, deviceSel: string, state: string)
    returns (request: Option<Masterkey>)
    ensures request.None? <==> (level == House && houseSel == "") || (level == Device && deviceSel == "")
    ensures request.Some? ==> WellTargeted(request.value.level, request.value.target)
    ensures request.Some? ==>
              request.value.id == Trim(idText) && request.value.level == level && request.value.state == state
    ensures request.Some? && level == House ==> request.value.target == houseSel
    ensures request.Some? && level == Device ==> request.value.target == deviceSel
  {
    var levelTarget := SelectTarget(level, houseSel, deviceSel);
    if (level == House || level == Device) && levelTarget == "" {
      return None;
    }
    request := Some(Masterkey(Trim(idText), level, levelTarget, state));
  }

  /** `updateMasterkey`: the edit request carries the selected target as
      `createMasterkey` chooses it, but an empty selection is sent as it
      is. */
  method UpdateMasterkey(level: string, houseSel: string, deviceSel: string, state: string)
    returns (data: MasterkeyUpdate)
    ensures data.level == level && data.state == state
    ensures level == House ==> data.target == houseSel
    ensures level == Device ==> data.target == deviceSel
    ensures level != House && level != Device ==> data.target == ""
    ensures ((level == House && houseSel == "") || (level == Device && deviceSel == "")) ==>
              !WellTargeted(data.level, data.target)
  {
    var levelTarget := SelectTarget(level, houseSel, deviceSel);
    data := MasterkeyUpdate(level, levelTarget, state);
  }

  /** `toggleState`: ACTIVA becomes INACTIVA, any other state ACTIVA. */
  function NextState(current: string): (r: string)
    ensures r == Activa || r == Inactiva
    ensures r == Inactiva <==> current == Activa
  {
    if current == Activa then Inactiva else Activa
  }

  /** Toggling twice restores a key that was ACTIVA or INACTIVA; any other
      state settles on ACTIVA after one toggle and back after two. */
  lemma NextStateTwice(current: string)
    ensures current == Activa || current == Inactiva ==> NextState(NextState(current)) == current
    ensures current != Activa && current != Inactiva ==> NextState(NextState(current)) == Inactiva
  {
  }

  /** `deleteMasterkey`: the request is sent only with the permission and
      once the user confirms. */
  method DeleteMasterkey(auth: Auth.AuthStore, masterkeyId: string, confirmed: bool) returns (requested: bool)
    ensures requested <==> auth.Can("masterkeys.delete") && confirmed
  {
    if !auth.Can("masterkeys.delete") {
      return false;
    }
    if !confirmed {
      return false;
    }
    return true;
  }

  /** Only a MASTER session may delete master keys. */
  lemma OnlyMasterDeletesMasterkeys(auth: Auth.AuthStore)
    ensures auth.Can("masterkeys.delete") <==> auth.currentUser.Some? && auth.currentUser.value.role == "MASTER"
  {
  }

  // ---------------------------------------------------------------------
  // The view object

  /** The view's state: the keys, houses and devices last loaded. */
  class MasterkeysView {
    var masterkeys: seq<Masterkey>
    var houses: seq<Houses.House>
    var devices: seq<Devices.RawDevice>

    constructor()
      ensures masterkeys == [] && houses == [] && devices == []
    {
      masterkeys := [];
      houses := [];
      devices := [];
    }

    /** `load`/`loadData`: without the view permission, or when one of the
        three requests fails, nothing is loaded; otherwise each list
        replaces the stored one, a missing list becoming the empty one. */
    method Load(auth: Auth.AuthStore, mkRes: Option<seq<Masterkey>>, housesRes: Option<seq<Houses.House>>,
                devicesRes: Option<seq<Devices.RawDevice>>, failed: bool)
      modifies this
      ensures !auth.Can("masterkeys.view") || failed ==>
                masterkeys == old(masterkeys) && houses == old(houses) && devices == old(devices)
      ensures auth.Can("masterkeys.view") && !failed ==>
                masterkeys == mkRes.GetOr([]) && houses == housesRes.GetOr([]) && devices == devicesRes.GetOr([])
    {
      if !auth.Can("masterkeys.view") || failed {
        return;
      }
      masterkeys := mkRes.GetOr([]);
      houses := housesRes.GetOr([]);
      devices := devicesRes.GetOr([]);
    }

    /** The target cell of a row, against the loaded houses and devices. */
    function TargetCell(mk: Masterkey): (r: string)
      reads this
      ensures r != ""
    {
      TargetLabelShape(mk, houses, devices);
      TargetLabel(mk, houses, devices)
    }
  }
}
