/**
 * The record type of the benchmark (a "Dog"), the constructor that builds
 * one with a fresh ObjectId, and the constants the signal protocol and the
 * subscriptions use (src/schemas.tsx).
 */
module Schemas {
  import opened Wrappers

  /** A BSON ObjectId. The model keeps only its numeric value. */
  datatype ObjectId = ObjectId(value: nat)

  /** The synced record: `_id`, a required name and four optional attributes. */
  datatype Dog = Dog(
    id: ObjectId,
    breed: Option<string>,
    name: string,
    age: Option<int>,
    color: Option<string>,
    country: Option<string>)

  /** The name of the Dog schema, used as the table name everywhere. */
  const DogTable: string := "Dog"

  /** The reserved name that marks the last record written in an iteration. */
  const SignalDocumentName: string := "fido"

  /** The query of the one subscription the benchmark ever adds. */
  const BasicDogAgeQuery: string := "age < 50"

  /** A flexible-sync subscription: `realm.objects(table).filtered(query)`. */
  datatype Subscription = Subscription(table: string, query: string)

  /** The subscription every workload adds. */
  const DogSubscription: Subscription := Subscription(DogTable, BasicDogAgeQuery)

  /** The server-side filter of a change stream: operation type and the document's name. */
  datatype WatchFilter = WatchFilter(operationType: string, fullDocumentName: string)

  /** `{operationType: "insert", "fullDocument.name": SignalDocumentName}`. */
  const SignalInsertFilter: WatchFilter := WatchFilter("insert", SignalDocumentName)

  const DefaultBreed: string := "french bulldog"
  const DefaultColor: string := "black"
  const DefaultCountry: string := "united states"

  /** Number of hex digits in `ObjectId.toHexString()`: 12 bytes, two digits each. */
  const ObjectIdHexLength: nat := 24

  predicate IsHexDigit(c: char) {
    '0' <= c <= '9' || 'a' <= c <= 'f'
  }

  function HexDigit(d: nat): (c: char)
    requires d < 16
    ensures IsHexDigit(c)
  {
    "0123456789abcdef"[d]
  }

  /** The lowest `width` hex digits of `v`, most significant first. */
  function HexDigits(v: nat, width: nat): (s: string)
    ensures |s| == width
    ensures forall i :: 0 <= i < |s| ==> IsHexDigit(s[i])
  {
    if width == 0 then [] else HexDigits(v / 16, width - 1) + [HexDigit(v % 16)]
  }

  /** `ObjectId.toHexString()`: always 24 lower-case hex digits. */
  function ToHexString(id: ObjectId): (s: string)
    ensures |s| == ObjectIdHexLength
    ensures forall i :: 0 <= i < |s| ==> IsHexDigit(s[i])
  {
    HexDigits(id.value, ObjectIdHexLength)
  }

  /** A name generated from an ObjectId can never be the signal name. */
  lemma GeneratedNameIsNotSignal(id: ObjectId)
    ensures ToHexString(id) != SignalDocumentName
  {
    assert |ToHexString(id)| != |SignalDocumentName|;
  }

  /** The object literal GetNewDog returns once its `_id` has been drawn. */
  function DogRecord(id: ObjectId, name: string, age: int): Dog {
    Dog(id, Some(DefaultBreed), name, Some(age), Some(DefaultColor), Some(DefaultCountry))
  }

  /**
   * The process-wide ObjectId source (`new Realm.BSON.ObjectId()`). The model
   * hands out consecutive values; only their uniqueness is relied on.
   */
  class ObjectIdGenerator {
    var next: nat

    constructor ()
      ensures next == 0
    {
      next := 0;
    }

    /** Every id handed out so far. */
    ghost function Issued(): set<ObjectId>
      reads this
    {
      set v: nat | v < next :: ObjectId(v)
    }

    method NewObjectId() returns (id: ObjectId)
      modifies this
      ensures id == ObjectId(old(next)) && next == old(next) + 1
      ensures id !in old(Issued())
      ensures Issued() == old(Issued()) + {id}
    {
      id := ObjectId(next);
      next := next + 1;
      assert forall x :: x in Issued() <==> x in old(Issued()) || x == id by {
        forall x ensures x in Issued() <==> x in old(Issued()) || x == id {
          if x in Issued() {
            assert x.value < next;
          }
        }
      }
    }
  }

  /**
   * `GetNewDog(name, age)`: a record with the given name and age, the three
   * fixed attributes, and an `_id` never issued before.
   */
  method GetNewDog(ids: ObjectIdGenerator, name: string, age: int) returns (dog: Dog)
    modifies ids
    ensures dog == DogRecord(ObjectId(old(ids.next)), name, age)
    ensures dog.id !in old(ids.Issued())
    ensures dog.name == name && dog.age == Some(age)
    ensures dog.breed == Some(DefaultBreed) && dog.color == Some(DefaultColor)
    ensures dog.country == Some(DefaultCountry)
    ensures ids.next == old(ids.next) + 1
  {
    var objId := ids.NewObjectId();
    dog := DogRecord(objId, name, age);
  }
}
