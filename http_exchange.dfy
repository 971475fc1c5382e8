/** The parts of the `HttpExchange` interface that carry behaviour of their own: the
    exchange phases, and `getOrPut` over the exchange's attribute bag. */
module HttpExchange {
  import opened Common

  datatype ExchangePhase = RequestReceived | RequestDispatched | ResponseSent

  /** A `Throwable`, known by its message. */
  datatype Failure = Failure(message: string)

  /** An attribute value (`Any`), known only by its identity. */
  datatype AttributeValue = AttributeValue(id: nat)

  /** The mutable map behind an exchange's `get` and `put`. */
  class Attributes {
    var entries: map<string, AttributeValue>

    constructor ()
      ensures entries == map[]
    {
      entries := map[];
    }

    /** `get(key)`: the value under the key, or null. */
    method Get(key: string) returns (value: Option<AttributeValue>)
      ensures value.Some? <==> key in entries
      ensures value.Some? ==> entries[key] == value.value
    {
      value := if key in entries then Some(entries[key]) else None;
    }

    /** `put(key, value)`: replaces any earlier value. */
    method Put(key: string, value: AttributeValue)
      modifies this
      ensures entries == old(entries)[key := value]
    {
      entries := entries[key := value];
    }
  }

  /** `getOrPut`: a present key gives its value without calling the supplier; an absent
      key calls the supplier once and stores what it gives. */
  method GetOrPut(attributes: Attributes, key: string, defaultSupplier: () -> AttributeValue)
    returns (value: AttributeValue, supplierCalls: nat)
    modifies attributes
    ensures key in old(attributes.entries) ==>
              value == old(attributes.entries)[key] && supplierCalls == 0 &&
              attributes.entries == old(attributes.entries)
    ensures key !in old(attributes.entries) ==>
              value == defaultSupplier() && supplierCalls == 1 &&
              attributes.entries == old(attributes.entries)[key := value]
    ensures key in attributes.entries && attributes.entries[key] == value
  {
    var existing := attributes.Get(key);
    if existing.Some? {
      return existing.value, 0;
    }
    value := defaultSupplier();
    supplierCalls := 1;
    attributes.Put(key, value);
  }

  /** A second `getOrPut` on the same key returns the first one's value and does not
      call its supplier. */
  method GetOrPutTwice(attributes: Attributes, key: string, first: () -> AttributeValue,
                       second: () -> AttributeValue)
    returns (a: AttributeValue, b: AttributeValue, secondCalls: nat)
    modifies attributes
    ensures a == b && secondCalls == 0
  {
    var calls;
    a, calls := GetOrPut(attributes, key, first);
    b, secondCalls := GetOrPut(attributes, key, second);
  }
}
