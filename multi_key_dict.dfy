/** A dictionary whose entries are reachable by name, by unique id and by
    wavelength: three tables filled together and searched in that order. */
module MultiKeyDicts {
  import opened Wrappers

  /** The hashable scalars used as keys and stored as dictionary items. */
  datatype Scalar = Text(text: string) | Integer(number: int) | NoneValue

  /** A Python `dict` value: a mutable object that the tables share by reference. */
  class Record {
    var items: map<string, Scalar>

    constructor(items: map<string, Scalar>)
      ensures this.items == items
    {
      this.items := items;
    }
  }

  /** A stored value: a dict, which assignment annotates in place, or anything else. */
  datatype Value = DictValue(record: Record) | ScalarValue(scalar: Scalar)

  datatype LookupError = KeyError(key: Scalar)

  /** What assigning `value` under a triple writes into it when it is a dict. */
  function Annotated(items: map<string, Scalar>, name: Scalar, uniqueId: Scalar, wavelength: Scalar): (r: map<string, Scalar>)
    ensures r.Keys == items.Keys + {"name", "unique_id", "wavelength"}
    ensures r["name"] == name && r["unique_id"] == uniqueId && r["wavelength"] == wavelength
    ensures forall k :: k in items && k !in {"name", "unique_id", "wavelength"} ==> r[k] == items[k]
  {
    items["name" := name]["unique_id" := uniqueId]["wavelength" := wavelength]
  }

  /** A key looked up in the three tables, in order of precedence. */
  function Lookup(byName: map<Scalar, Value>, byUuid: map<Scalar, Value>, byWavelength: map<Scalar, Value>,
                  key: Scalar): Result<Value, LookupError>
  {
    if key in byName then Success(byName[key])
    else if key in byUuid then Success(byUuid[key])
    else if key in byWavelength then Success(byWavelength[key])
    else Failure(KeyError(key))
  }

  /** What lookups find once one entry is written under a triple. */
  lemma LookupAfterAssignment(byName: map<Scalar, Value>, byUuid: map<Scalar, Value>, byWavelength: map<Scalar, Value>,
                              name: Scalar, uniqueId: Scalar, wavelength: Scalar, value: Value)
    ensures var n, u, w := byName[name := value], byUuid[uniqueId := value], byWavelength[wavelength := value];
      Lookup(n, u, w, name) == Success(value)
      && (uniqueId == name || uniqueId !in byName ==> Lookup(n, u, w, uniqueId) == Success(value))
      && (uniqueId != name && uniqueId in byName ==> Lookup(n, u, w, uniqueId) == Success(byName[uniqueId]))
      && (wavelength == name || (wavelength !in byName && (wavelength == uniqueId || wavelength !in byUuid)) ==>
            Lookup(n, u, w, wavelength) == Success(value))
      && forall k :: k != name && k != uniqueId && k != wavelength ==>
            Lookup(n, u, w, k) == Lookup(byName, byUuid, byWavelength, k)
  {
  }

  /** The three tables. */
  class MultiKeyDict {
    var byName: map<Scalar, Value>
    var byUuid: map<Scalar, Value>
    var byWavelength: map<Scalar, Value>

    constructor()
      ensures byName == map[] && byUuid == map[] && byWavelength == map[]
    {
      byName, byUuid, byWavelength := map[], map[], map[];
    }

    /** `d[(name, unique_id, wavelength)] = value`: each table gains or replaces
        one entry, and a dict value is first annotated with the triple. Entries
        stored earlier under other keys are kept, even when they belong to a
        triple that shared one of these keys. The dict object itself is shared
        by the tables, so entries that already hold it see the new annotation. */
    method Set(name: Scalar, uniqueId: Scalar, wavelength: Scalar, value: Value)
      modifies this, if value.DictValue? then {value.record} else {}
      ensures byName == old(byName)[name := value]
      ensures byUuid == old(byUuid)[uniqueId := value]
      ensures byWavelength == old(byWavelength)[wavelength := value]
      ensures value.DictValue? ==>
        value.record.items == Annotated(old(value.record.items), name, uniqueId, wavelength)
      ensures Get(name) == Success(value)
      ensures uniqueId == name || uniqueId !in old(byName) ==> Get(uniqueId) == Success(value)
      ensures uniqueId != name && uniqueId in old(byName) ==> Get(uniqueId) == Success(old(byName)[uniqueId])
      ensures wavelength == name || (wavelength !in old(byName) && (wavelength == uniqueId || wavelength !in old(byUuid))) ==>
        Get(wavelength) == Success(value)
      ensures forall k :: k != name && k != uniqueId && k != wavelength ==> Get(k) == old(Get(k))
    {
      LookupAfterAssignment(byName, byUuid, byWavelength, name, uniqueId, wavelength, value);
      if value.DictValue? {
        var record := value.record;
        record.items := record.items["name" := name];
        record.items := record.items["unique_id" := uniqueId];
        record.items := record.items["wavelength" := wavelength];
      }
      byName := byName[name := value];
      byUuid := byUuid[uniqueId := value];
      byWavelength := byWavelength[wavelength := value];
    }

    /** `d[key]`: the name table wins over the uuid table, which wins over the
        wavelength table; a key in none of them raises KeyError. */
    function Get(key: Scalar): (r: Result<Value, LookupError>)
      reads this
      ensures r.Failure? <==> key !in byName && key !in byUuid && key !in byWavelength
      ensures r.Failure? ==> r.error == KeyError(key)
      ensures key in byName ==> r == Success(byName[key])
      ensures key !in byName && key in byUuid ==> r == Success(byUuid[key])
      ensures key !in byName && key !in byUuid && key in byWavelength ==> r == Success(byWavelength[key])
    {
      Lookup(byName, byUuid, byWavelength, key)
    }

    /** `d.clear()`: every table is emptied. */
    method Clear()
      modifies this
      ensures byName == map[] && byUuid == map[] && byWavelength == map[]
      ensures forall key :: Get(key) == Failure(KeyError(key))
    {
      byName, byUuid, byWavelength := map[], map[], map[];
    }
  }
}
