/**
 * The device inventory's one operation: toggling a device's status by id.
 */
module Devices {
  import opened Types

  /**
   * The status a toggle gives a device: an online device goes offline and a
   * device in any other status (offline, warning, maintenance) comes online.
   * A toggle always changes the status.
   */
  function Flipped(s: DeviceStatus): (r: DeviceStatus)
    ensures r == Online || r == Offline
    ensures r != s
    ensures r == Offline <==> s == Online
  {
    if s == Online then Offline else Online
  }

  /** Toggling twice restores a status exactly when it was online or offline. */
  lemma FlippedTwice(s: DeviceStatus)
    ensures Flipped(Flipped(s)) == s <==> s == Online || s == Offline
  {
  }

  /** No two devices of the list share an id. */
  predicate UniqueIds(devices: seq<Device>) {
    forall i, j :: 0 <= i < j < |devices| ==> devices[i].id != devices[j].id
  }

  /**
   * `toggleDeviceStatus`: a map over the list that toggles the status of the
   * devices whose id matches. Length, order and every field but the status are
   * kept; a status changes exactly where the id matches, and there an online
   * device ends offline and any other ends online.
   */
  function Toggle(devices: seq<Device>, id: string): (r: seq<Device>)
    ensures |r| == |devices|
    ensures forall i :: 0 <= i < |r| ==> r[i] == devices[i].(status := r[i].status)
    ensures forall i :: 0 <= i < |r| ==> (r[i].status != devices[i].status <==> devices[i].id == id)
    ensures forall i :: 0 <= i < |r| && devices[i].id == id ==>
      (r[i].status == Offline <==> devices[i].status == Online) &&
      (r[i].status == Online <==> devices[i].status != Online)
  {
    seq(|devices|, i requires 0 <= i < |devices| =>
      if devices[i].id == id then devices[i].(status := Flipped(devices[i].status)) else devices[i])
  }

  /** An id no device has leaves the list identical. */
  lemma ToggleUnknownId(devices: seq<Device>, id: string)
    requires forall i :: 0 <= i < |devices| ==> devices[i].id != id
    ensures Toggle(devices, id) == devices
  {
  }

  /** Toggling keeps the ids, so an inventory with unique ids keeps them unique. */
  lemma ToggleKeepsUniqueIds(devices: seq<Device>, id: string)
    requires UniqueIds(devices)
    ensures UniqueIds(Toggle(devices, id))
  {
  }

  /** With unique ids, a toggle changes at most one device: the one with that id. */
  lemma ToggleChangesOneDevice(devices: seq<Device>, id: string, k: nat)
    requires UniqueIds(devices)
    requires k < |devices| && devices[k].id == id
    ensures forall i :: 0 <= i < |devices| && i != k ==> Toggle(devices, id)[i] == devices[i]
    ensures Toggle(devices, id)[k] == devices[k].(status := Flipped(devices[k].status))
  {
  }

  /**
   * Toggling the same id twice restores the list when every device with that
   * id is online or offline.
   */
  lemma ToggleTwice(devices: seq<Device>, id: string)
    requires forall i :: 0 <= i < |devices| && devices[i].id == id ==>
      devices[i].status == Online || devices[i].status == Offline
    ensures Toggle(Toggle(devices, id), id) == devices
  {
  }
}
