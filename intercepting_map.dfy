/** `InterceptingMap`: the script engine's view of a host map. Reads go to the map,
    writes go through to it when it is mutable, and a failed `check` on an immutable
    map is an error. */
module InterceptingMap {
  import opened Common

  /** A value held in the host map. */
  datatype Element = HostElement(id: nat) | GuestElement(id: nat)

  /** A polyglot value handed in by a script: a wrapped host object, or a guest value. */
  datatype PolyglotValue = HostValue(hostObject: nat) | GuestValue(id: nat)

  /** What `putMember` stores: the host object itself, or the guest value. */
  function Unwrapped(value: PolyglotValue): (e: Element)
    ensures value.HostValue? <==> e.HostElement?
    ensures value.HostValue? ==> e.id == value.hostObject
    ensures value.GuestValue? ==> e.id == value.id
  {
    match value
    case HostValue(hostObject) => HostElement(hostObject)
    case GuestValue(id) => GuestElement(id)
  }

  /** The map may hold a null key, which only `getMember(null)` can read. */
  class InterceptingMap {
    var src: map<Option<string>, Element>
    /** Whether the source is a `MutableMap`. */
    const mutable: bool

    constructor (src: map<Option<string>, Element>, mutable: bool)
      ensures this.src == src && this.mutable == mutable
    {
      this.src := src;
      this.mutable := mutable;
    }

    /** `getMember`: the value under the key, null when absent. */
    function GetMember(key: Option<string>): (r: Option<Element>)
      reads this
      ensures r.Some? <==> key in src
      ensures r.Some? ==> r.value == src[key]
    {
      if key in src then Some(src[key]) else None
    }

    /** `hasMember`: false for a null key, whatever the map holds. */
    function HasMember(key: Option<string>): (r: bool)
      reads this
      ensures key.None? ==> !r
      ensures key.Some? ==> (r <==> key in src)
    {
      key.Some? && key in src
    }

    /** `getMemberKeys`: every key once, in the map's own order. */
    method GetMemberKeys() returns (keys: seq<Option<string>>)
      ensures forall k :: k in keys <==> k in src
      ensures forall i, j :: 0 <= i < j < |keys| ==> keys[i] != keys[j]
    {
      keys := [];
      var remaining := src.Keys;
      while remaining != {}
        invariant remaining <= src.Keys
        invariant forall k :: k in keys <==> k in src.Keys - remaining
        invariant forall i, j :: 0 <= i < j < |keys| ==> keys[i] != keys[j]
        decreases remaining
      {
        var k :| k in remaining;
        assert k !in keys;
        keys := keys + [k];
        remaining := remaining - {k};
      }
    }

    /** `putMember`: fails on an immutable map; a null value changes nothing. */
    method PutMember(key: string, value: Option<PolyglotValue>) returns (r: Result<()>)
      modifies this
      ensures r.Err? <==> !mutable
      ensures !mutable || value.None? ==> src == old(src)
      ensures mutable && value.Some? ==> src == old(src)[Some(key) := Unwrapped(value.value)]
    {
      if !mutable {
        return Err("Check failed.");
      }
      if value.Some? {
        src := src[Some(key) := Unwrapped(value.value)];
      }
      r := Ok(());
    }

    /** `removeMember`: fails on an immutable map; otherwise reports whether the key
        was present. */
    method RemoveMember(key: Option<string>) returns (r: Result<bool>)
      modifies this
      ensures r.Err? <==> !mutable
      ensures r.Ok? ==> (r.value <==> key in old(src))
      ensures r.Ok? ==> src == old(src) - {key}
      ensures r.Err? ==> src == old(src)
    {
      if !mutable {
        return Err("Check failed.");
      }
      if key in src {
        src := src - {key};
        return Ok(true);
      }
      r := Ok(false);
    }
  }

  /** A value put under a key reads back, unwrapped. */
  method PutThenGet(m: InterceptingMap, key: string, value: PolyglotValue) returns (r: Option<Element>)
    requires m.mutable
    modifies m
    ensures r == Some(Unwrapped(value))
    ensures m.HasMember(Some(key))
  {
    var _ := m.PutMember(key, Some(value));
    r := m.GetMember(Some(key));
  }

  /** After a remove the key is gone, and a second remove reports false. */
  method RemoveTwice(m: InterceptingMap, key: Option<string>) returns (first: Result<bool>, second: Result<bool>)
    requires m.mutable
    modifies m
    ensures first == Ok(key in old(m.src)) && second == Ok(false)
    ensures m.GetMember(key).None?
  {
    first := m.RemoveMember(key);
    second := m.RemoveMember(key);
  }
}
