/** The device-local log of finished assessments: a list stored under one key
    of the key-value storage, newest first. The storage is an in-memory map
    from key to list; the clock and the random id suffix are inputs. */
module LocalAssessments {
  import opened JsObject
  import Text

  /** The storage key of the log. */
  const StorageKey: string := "local_assessments"

  /** A finished assessment as it is stored. `date` is a time in milliseconds. */
  datatype Assessment = Assessment(
    id: string,
    scaleId: string,
    patientData: Obj<string>,
    answers: Obj<int>,
    date: int,
    score: int,
    interpretation: string)

  /** Where a storage call fails, if it does: reading the stored list
      (including a stored value that does not parse) or writing it back. */
  datatype Fault = NoFault | ReadFault | WriteFault

  /** The key-value storage, each key holding a list of assessments. */
  type Store = map<string, seq<Assessment>>

  /** The id given to a saved record: "local_", the time, "_" and a random suffix. */
  function LocalId(now: nat, suffix: string): (id: string)
    ensures Text.StartsWith(id, "local_")
    ensures |id| > |"local_"| + |suffix|
  {
    "local_" + Text.Decimal(now) + "_" + suffix
  }

  /** The record as saved: a fresh local id and the save time replace whatever
      id and date it carried; every other field is kept. */
  function Stamp(a: Assessment, now: nat, suffix: string): (r: Assessment)
    ensures Text.StartsWith(r.id, "local_")
    ensures r.date == now
    ensures r.(id := a.id, date := a.date) == a
  {
    a.(id := LocalId(now, suffix), date := now)
  }

  /** The stored log; a missing key reads as the empty list. */
  function Stored(items: Store): seq<Assessment>
  {
    if StorageKey in items then items[StorageKey] else []
  }

  /** The storage after `saveLocalAssessment`: on success the stamped record
      is put in front of the existing ones; on any failure nothing changes. */
  function AfterSave(items: Store, a: Assessment, now: nat, suffix: string, fault: Fault): Store
  {
    if fault == NoFault then items[StorageKey := [Stamp(a, now, suffix)] + Stored(items)] else items
  }

  /** The storage after `clearLocalAssessments`: the key is removed unless the removal fails. */
  function AfterClear(items: Store, failed: bool): Store
  {
    if failed then items else items - {StorageKey}
  }

  /** A successful save puts the stamped record first, keeps the earlier
      records after it in their order, grows the log by one and leaves every
      other key alone; a failed save changes nothing. */
  lemma SavePrepends(items: Store, a: Assessment, now: nat, suffix: string, fault: Fault)
    ensures fault == NoFault ==>
      && Stored(AfterSave(items, a, now, suffix, fault)) == [Stamp(a, now, suffix)] + Stored(items)
      && |Stored(AfterSave(items, a, now, suffix, fault))| == |Stored(items)| + 1
      && Stored(AfterSave(items, a, now, suffix, fault))[1..] == Stored(items)
    ensures fault != NoFault ==> AfterSave(items, a, now, suffix, fault) == items
    ensures forall k :: k != StorageKey && k in items ==>
      k in AfterSave(items, a, now, suffix, fault) && AfterSave(items, a, now, suffix, fault)[k] == items[k]
  {
  }

  /** After a successful clear the key is gone and the log reads as empty, so
      the next successful save leaves a one-record log. */
  lemma ClearThenSave(items: Store, a: Assessment, now: nat, suffix: string)
    ensures StorageKey !in AfterClear(items, false)
    ensures Stored(AfterClear(items, false)) == []
    ensures Stored(AfterSave(AfterClear(items, false), a, now, suffix, NoFault)) == [Stamp(a, now, suffix)]
  {
  }

  /** The key-value storage (AsyncStorage) as a mutable map. */
  class Storage {
    var items: Store

    constructor(initial: Store)
      ensures items == initial
    {
      items := initial;
    }

    /** `saveLocalAssessment`: stamp the record, read the log, write it back
        with the record in front. Any failure yields false instead of an error. */
    method SaveLocalAssessment(a: Assessment, now: nat, suffix: string, fault: Fault) returns (ok: bool)
      modifies this
      ensures ok <==> fault == NoFault
      ensures items == AfterSave(old(items), a, now, suffix, fault)
    {
      var newAssessment := Stamp(a, now, suffix);
      if fault == ReadFault {
        return false;
      }
      var existing := if StorageKey in items then items[StorageKey] else [];
      if fault == WriteFault {
        return false;
      }
      items := items[StorageKey := [newAssessment] + existing];
      return true;
    }

    /** `clearLocalAssessments`: remove the key; a failing removal yields false. */
    method ClearLocalAssessments(failed: bool) returns (ok: bool)
      modifies this
      ensures ok <==> !failed
      ensures items == AfterClear(old(items), failed)
    {
      if failed {
        return false;
      }
      items := items - {StorageKey};
      return true;
    }
  }
}
