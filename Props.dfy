/**
 * `java.util.Properties` built over a defaults table: a lookup consults the
 * table's own entries first and the defaults second; updates touch only the
 * own entries.
 */
module Props {
  import opened Wrappers

  /** The value `m` maps `key` to, if any. */
  function Find(m: map<string, string>, key: string): Option<string>
  {
    if key in m then Some(m[key]) else None
  }

  /** `getProperty` over the two layers. */
  function Lookup(own: map<string, string>, defaults: map<string, string>, key: string): Option<string>
  {
    if key in own then Some(own[key]) else Find(defaults, key)
  }

  /**
   * The own entries after a series of `setProperty` and `remove` calls whose net
   * effect is `writes`: a key mapped to `Some(v)` was last set to `v`, one mapped
   * to `None` was last removed, and every other key was left alone.
   */
  function Overlay(own: map<string, string>, writes: map<string, Option<string>>): (r: map<string, string>)
    ensures forall k :: k in writes ==> Find(r, k) == writes[k]
    ensures forall k :: k !in writes ==> Find(r, k) == Find(own, k)
  {
    map k | k in own.Keys + writes.Keys && (k in writes ==> writes[k].Some?) ::
      if k in writes then writes[k].value else own[k]
  }

  /** A property table whose own entries the launcher and the capsule share and update. */
  class PropertyTable {
    var own: map<string, string>
    const defaults: map<string, string>

    /** `new Properties(defaults)`: no own entries yet. */
    constructor (defaults: map<string, string>)
      ensures own == map[] && this.defaults == defaults
    {
      own := map[];
      this.defaults := defaults;
    }

    /** The value a lookup of `key` yields. */
    function GetProperty(key: string): Option<string>
      reads this
    {
      Lookup(own, defaults, key)
    }

    /** `setProperty`: a later lookup of `key` yields `value`; no other key changes. */
    method SetProperty(key: string, value: string)
      modifies this
      ensures own == old(own)[key := value]
      ensures GetProperty(key) == Some(value)
      ensures forall k :: k != key ==> GetProperty(k) == old(GetProperty(k))
    {
      own := own[key := value];
    }

    /** Updates made through another reference to the table, with net effect `writes`. */
    method Apply(writes: map<string, Option<string>>)
      modifies this
      ensures own == Overlay(old(own), writes)
      ensures forall k :: k in writes ==> Find(own, k) == writes[k]
      ensures forall k :: k !in writes ==> Find(own, k) == old(Find(own, k))
    {
      own := Overlay(own, writes);
    }

    /** `remove`: drops `key` from the own entries only, so a lookup falls back to the defaults. */
    method Remove(key: string)
      modifies this
      ensures own == old(own) - {key}
      ensures GetProperty(key) == Find(defaults, key)
      ensures forall k :: k != key ==> GetProperty(k) == old(GetProperty(k))
    {
      own := own - {key};
    }
  }
}
