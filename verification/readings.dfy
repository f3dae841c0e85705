/** The readings the coordinator buffers: one per state-change notification of a
    monitored entity, carrying the new state and a whitelisted part of its attributes. */
module Readings {
  import opened Wrappers
  import opened JsonValues

  /** The only attribute keys copied from an entity state into a reading. */
  const ForwardedAttributes: set<string> :=
    {"unit_of_measurement", "device_class", "state_class", "friendly_name"}

  /** A host entity state: its value, its attributes and the ISO-8601 time it was last updated. */
  datatype EntityState = EntityState(state: string, attributes: map<string, Json>, lastUpdated: string)

  /** A state-change notification; `newState` is `None` when the entity was removed. */
  datatype StateChangedEvent = StateChangedEvent(entityId: string, newState: Option<EntityState>)

  /** A buffered reading, as sent to the cloud. */
  datatype Reading = Reading(entityId: string, state: string, attributes: map<string, Json>, timestamp: string)

  /** The attributes of `attrs` whose key is whitelisted, with their values unchanged. */
  function ForwardAttributes(attrs: map<string, Json>): (r: map<string, Json>)
    ensures r.Keys == attrs.Keys * ForwardedAttributes
    ensures forall k :: k in r ==> r[k] == attrs[k]
    ensures |r| <= 4
  {
    var r := map k | k in attrs && k in ForwardedAttributes :: attrs[k];
    assert r.Keys <= ForwardedAttributes;
    SubsetCard(r.Keys, ForwardedAttributes);
    r
  }

  lemma SubsetCard(a: set<string>, b: set<string>)
    requires a <= b
    ensures |a| <= |b|
  {
    assert b == a + (b - a);
  }

  /** The reading built from a non-removed entity state. */
  function MakeReading(entityId: string, st: EntityState): (r: Reading)
    ensures r.entityId == entityId && r.state == st.state && r.timestamp == st.lastUpdated
    ensures r.attributes.Keys <= ForwardedAttributes && r.attributes.Keys <= st.attributes.Keys
    ensures forall k :: k in st.attributes && k in ForwardedAttributes ==> k in r.attributes && r.attributes[k] == st.attributes[k]
  {
    Reading(entityId, st.state, ForwardAttributes(st.attributes), st.lastUpdated)
  }

  /** The readings a sequence of notifications contributes, in arrival order;
      notifications of removed entities contribute nothing. */
  function ReadingsOf(events: seq<StateChangedEvent>): seq<Reading>
  {
    if |events| == 0 then []
    else
      var last := events[|events| - 1];
      ReadingsOf(events[..|events| - 1])
        + (if last.newState.Some? then [MakeReading(last.entityId, last.newState.value)] else [])
  }
}
